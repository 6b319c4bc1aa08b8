/** packages/element-path/src/element-path.ts: the query language of element paths. Its parser, its
    printer, and the translation of queries to XPath 1.0 conditions.

    The regular expressions of the parser are modelled by the grammar they recognise; `ScanExact` says
    that the scanner used here finds the groups of that grammar and nothing else. */
module ElementPaths {
  import opened Common

  datatype QueryError = InvalidQueryKey | OnlySubQuery | EmptyText | EmptySubQuery | MixedMask | TooManyParts

  datatype Mask =
    | AnyKey
    | Suffix(suffix: string)
    | Prefix(prefix: string)
    | ContainsKey(core: string)
    | ExactKey(exact: string)
    | Parts(start: string, end: string)

  datatype TextSearch = ContainsText(part: string) | EqualsText(whole: string)

  datatype SubQuery = SubQuery(mask: Mask, text: Option<TextSearch>)

  datatype Query = Query(mask: Mask, text: Option<TextSearch>, sub: Option<SubQuery>)

  // ---- Scanning ----

  /** No character of s is one of the stop characters. */
  predicate Free(s: string, stop: set<char>) {
    forall i :: 0 <= i < |s| ==> s[i] !in stop
  }

  /** The length of the longest prefix without stop characters. */
  function Span(s: string, stop: set<char>): (n: nat)
    ensures n <= |s| && (n < |s| ==> s[n] in stop)
    ensures forall i :: 0 <= i < n ==> s[i] !in stop
  {
    if s == "" || s[0] in stop then 0
    else
      var n := Span(s[1..], stop);
      assert forall i :: 0 < i < n + 1 ==> s[i] == s[1..][i - 1];
      n + 1
  }

  lemma SpanUnique(s: string, stop: set<char>, n: nat)
    requires n <= |s| && Free(s[..n], stop) && (n < |s| ==> s[n] in stop)
    ensures Span(s, stop) == n
  {
    assert forall i :: 0 <= i < n ==> s[i] == s[..n][i];
  }

  /** An opening, a body without the closing character, and the closing character. */
  predicate IsGroup(s: string, open: string, close: char) {
    |open| < |s| && open <= s && s[|s| - 1] == close && Free(s[|open|..|s| - 1], {close})
  }

  predicate IsTextGroup(s: string) {
    IsGroup(s, "{", '}') || IsGroup(s, "={", '}')
  }

  /** The group at the beginning of s, if there is one. */
  function Group(s: string, open: string, close: char): (r: Option<string>)
    ensures r.Some? ==> r.value <= s && IsGroup(r.value, open, close)
  {
    if open <= s then
      var n := |open| + Span(s[|open|..], {close});
      if n < |s| then
        assert s[..n + 1][|open|..n] == s[|open|..][..n - |open|];
        Some(s[..n + 1])
      else None
    else None
  }

  lemma GroupFound(g: string, rest: string, open: string, close: char)
    requires IsGroup(g, open, close)
    ensures Group(g + rest, open, close) == Some(g)
  {
    var s := g + rest;
    var n := |g| - 1;
    assert s[|open|..][..n - |open|] == g[|open|..n];
    SpanUnique(s[|open|..], {close}, n - |open|);
    assert s[..n + 1] == g;
  }

  function TextGroup(s: string): (r: Option<string>)
    ensures r.Some? ==> r.value <= s && IsTextGroup(r.value)
  {
    if Group(s, "{", '}').Some? then Group(s, "{", '}') else Group(s, "={", '}')
  }

  /** The groups of the two regular expressions; an absent optional group is None. */
  datatype Groups = Groups(mask: string, text: Option<string>, sub: Option<string>)

  function Given(s: Option<string>): string {
    if s.Some? then s.value else ""
  }

  function Join(g: Groups): string {
    g.mask + (Given(g.text) + Given(g.sub))
  }

  const QUERY_STOPS := {'{', '(', '='}
  const SUB_QUERY_STOPS := {'{', '='}

  predicate Grammatical(g: Groups, stop: set<char>) {
    && Free(g.mask, stop)
    && (g.text.Some? ==> IsTextGroup(g.text.value))
    && (g.sub.Some? ==> IsGroup(g.sub.value, "(", ')'))
  }

  /** What is left of s after the first characters. */
  function After(s: string, first: string): (rest: string)
    requires first <= s
    ensures s == first + rest
  {
    s[|first|..]
  }

  lemma AfterConcat(first: string, rest: string)
    ensures first <= first + rest && After(first + rest, first) == rest
  {
  }

  /** The text and the sub query that make up all of s. */
  function ScanTail(s: string): (r: Option<(Option<string>, Option<string>)>)
    ensures r.Some? ==> s == Given(r.value.0) + Given(r.value.1)
    ensures r.Some? ==> (r.value.0.Some? ==> IsTextGroup(r.value.0.value))
    ensures r.Some? ==> (r.value.1.Some? ==> IsGroup(r.value.1.value, "(", ')'))
  {
    var text := TextGroup(s);
    var rest := After(s, Given(text));
    var sub := Group(rest, "(", ')');
    if Given(sub) == rest then Some((text, sub)) else None
  }

  /** The match of a regular expression whose mask stops at `stop`. */
  function Scan(key: string, stop: set<char>): (r: Option<Groups>)
    ensures r.Some? ==> Grammatical(r.value, stop)
  {
    var mask := key[..Span(key, stop)];
    var tail := ScanTail(After(key, mask));
    if tail.Some? then Some(Groups(mask, tail.value.0, tail.value.1)) else None
  }

  lemma ScanSound(key: string, stop: set<char>)
    ensures Scan(key, stop).Some? ==> Join(Scan(key, stop).value) == key
  {
  }

  lemma TextGroupFound(text: Option<string>, sub: Option<string>)
    requires text.Some? ==> IsTextGroup(text.value)
    requires sub.Some? ==> IsGroup(sub.value, "(", ')')
    ensures TextGroup(Given(text) + Given(sub)) == text
  {
    var s := Given(text) + Given(sub);
    if text.Some? {
      if IsGroup(text.value, "{", '}') {
        GroupFound(text.value, Given(sub), "{", '}');
      } else {
        assert s[0] == '=';
        GroupFound(text.value, Given(sub), "={", '}');
      }
    } else if sub.Some? {
      assert s[0] == '(';
    }
  }

  lemma TailFound(text: Option<string>, sub: Option<string>)
    requires text.Some? ==> IsTextGroup(text.value)
    requires sub.Some? ==> IsGroup(sub.value, "(", ')')
    ensures ScanTail(Given(text) + Given(sub)) == Some((text, sub))
  {
    TextGroupFound(text, sub);
    AfterConcat(Given(text), Given(sub));
    if sub.Some? {
      GroupFound(sub.value, "", "(", ')');
      assert sub.value + "" == sub.value;
    }
  }

  lemma MaskFound(mask: string, tail: string, stop: set<char>)
    requires Free(mask, stop) && (tail != "" ==> tail[0] in stop)
    ensures Span(mask + tail, stop) == |mask|
    ensures (mask + tail)[..|mask|] == mask
  {
  }

  /** Every grammatical key is matched, with exactly its groups. */
  lemma ScanJoin(g: Groups, stop: set<char>)
    requires Grammatical(g, stop) && SUB_QUERY_STOPS <= stop
    requires g.sub.Some? && g.text.None? ==> '(' in stop
    ensures Scan(Join(g), stop) == Some(g)
  {
    var tail := Given(g.text) + Given(g.sub);
    assert Join(g) == g.mask + tail;
    assert tail != "" ==> tail[0] in stop;
    MaskFound(g.mask, tail, stop);
    AfterConcat(g.mask, tail);
    TailFound(g.text, g.sub);
  }

  /** `QUERY_RE` matches a key exactly when the key is a mask, a text search and a sub query, each
      possibly absent, in this order. */
  lemma ScanExact(key: string, g: Groups)
    ensures Scan(key, QUERY_STOPS) == Some(g) <==> Grammatical(g, QUERY_STOPS) && Join(g) == key
  {
    ScanSound(key, QUERY_STOPS);
    if Grammatical(g, QUERY_STOPS) && Join(g) == key {
      ScanJoin(g, QUERY_STOPS);
    }
  }

  // ---- Parsing ----

  function WithoutFirstStar(s: string): string {
    if s != "" && s[0] == '*' then s[1..] else s
  }

  function WithoutLastStar(s: string): string {
    if s != "" && s[|s| - 1] == '*' then s[..|s| - 1] else s
  }

  /** The two parts around the only star. */
  function ParseParts(searched: string): Result<Mask, QueryError>
    requires '*' in searched
  {
    var split := Span(searched, {'*'});
    var rest := searched[split + 1..];
    if '*' in rest then Err(TooManyParts) else Ok(Parts(searched[..split], rest))
  }

  /** The mask without an inner star. */
  function FlatMask(searched: string, suffixed: bool, prefixed: bool): Mask {
    if suffixed && !prefixed then Suffix(searched)
    else if !suffixed && prefixed then Prefix(searched)
    else if suffixed && prefixed then ContainsKey(searched)
    else ExactKey(searched)
  }

  function ParseMask(mask: string): Result<Mask, QueryError> {
    if mask == "*" || mask == "" then Ok(AnyKey)
    else
      var searched := WithoutLastStar(WithoutFirstStar(mask));
      var suffixed, prefixed := mask[0] == '*', mask[|mask| - 1] == '*';
      var hasInnerSplit := '*' in searched;
      if hasInnerSplit && (prefixed || suffixed) then Err(MixedMask)
      else if suffixed || prefixed || !hasInnerSplit then Ok(FlatMask(searched, suffixed, prefixed))
      else ParseParts(searched)
  }

  function ParseText(textMask: string): Result<Option<TextSearch>, QueryError>
    requires IsTextGroup(textMask)
  {
    if textMask == "{}" then Err(EmptyText)
    else if textMask[0] == '{' then Ok(Some(ContainsText(textMask[1..|textMask| - 1])))
    else if "={" <= textMask then Ok(Some(EqualsText(textMask[2..|textMask| - 1])))
    else Ok(None)
  }

  function ParseOptionalText(textMask: Option<string>): Result<Option<TextSearch>, QueryError>
    requires textMask.Some? ==> IsTextGroup(textMask.value)
  {
    if textMask.Some? then ParseText(textMask.value) else Ok(None)
  }

  /** A sub query that does not match its own regular expression searches for any key. */
  function ParseInner(query: string): Result<SubQuery, QueryError> {
    var parts := Scan(query, SUB_QUERY_STOPS);
    if parts.None? then Ok(SubQuery(AnyKey, None))
    else
      var mask := ParseMask(parts.value.mask);
      var text := ParseOptionalText(parts.value.text);
      if mask.Err? then Err(mask.error)
      else if text.Err? then Err(text.error)
      else Ok(SubQuery(mask.value, text.value))
  }

  function ParseSubQuery(subQuery: string): Result<SubQuery, QueryError>
    requires IsGroup(subQuery, "(", ')')
  {
    if subQuery == "()" then Err(EmptySubQuery) else ParseInner(subQuery[1..|subQuery| - 1])
  }

  function ParseOptionalSubQuery(subQuery: Option<string>): Result<Option<SubQuery>, QueryError>
    requires subQuery.Some? ==> IsGroup(subQuery.value, "(", ')')
  {
    if subQuery.None? then Ok(None)
    else
      var sub := ParseSubQuery(subQuery.value);
      if sub.Err? then Err(sub.error) else Ok(Some(sub.value))
  }

  /** An empty mask group is undefined, so it does not count as a mask. */
  function ParseGroups(g: Groups): Result<Query, QueryError>
    requires Grammatical(g, QUERY_STOPS)
  {
    if g.mask == "" && g.text.None? && g.sub.Some? then Err(OnlySubQuery)
    else
      var mask := ParseMask(g.mask);
      var text := ParseOptionalText(g.text);
      var sub := ParseOptionalSubQuery(g.sub);
      if mask.Err? then Err(mask.error)
      else if text.Err? then Err(text.error)
      else if sub.Err? then Err(sub.error)
      else Ok(Query(mask.value, text.value, sub.value))
  }

  function ParseQueryKey(key: string): Result<Query, QueryError> {
    var parts := Scan(key, QUERY_STOPS);
    if parts.None? then Err(InvalidQueryKey) else ParseGroups(parts.value)
  }

  // ---- Which masks are accepted ----

  predicate IsStar(mask: string, i: int) {
    0 <= i < |mask| && mask[i] == '*'
  }

  /** Stars only at the two ends, or a single star anywhere. */
  ghost predicate AcceptableMask(mask: string) {
    || (forall i :: IsStar(mask, i) ==> i == 0 || i == |mask| - 1)
    || (forall i, j :: IsStar(mask, i) && IsStar(mask, j) ==> i == j)
  }

  /** The part of a mask that `parseMask` searches for further stars, and where it starts. */
  function Searched(mask: string): (r: (string, nat))
    ensures forall k :: 0 <= k < |r.0| ==> r.1 + k < |mask| && r.0[k] == mask[r.1 + k]
  {
    (WithoutLastStar(WithoutFirstStar(mask)), if mask != "" && mask[0] == '*' then 1 else 0)
  }

  lemma MaskWithoutInnerStar(mask: string)
    requires |mask| > 1 && '*' !in Searched(mask).0
    ensures ParseMask(mask).Ok? && AcceptableMask(mask)
  {
  }

  lemma InnerStar(mask: string) returns (i: nat)
    requires |mask| > 1 && '*' in Searched(mask).0 && (mask[0] == '*' || mask[|mask| - 1] == '*')
    ensures IsStar(mask, i) && i != 0 && i != |mask| - 1
  {
    var (searched, from) := Searched(mask);
    var k :| 0 <= k < |searched| && searched[k] == '*';
    i := from + k;
  }

  lemma TwoStarsNotAcceptable(mask: string, i: nat, j: nat)
    requires IsStar(mask, i) && IsStar(mask, j) && i != j && i != 0 && i != |mask| - 1
    ensures !AcceptableMask(mask)
  {
  }

  lemma OuterAndInnerStarRejected(mask: string)
    requires |mask| > 1 && '*' in Searched(mask).0 && (mask[0] == '*' || mask[|mask| - 1] == '*')
    ensures ParseMask(mask) == Err(MixedMask)
  {
    assert mask != "*" && mask != "";
  }

  lemma MaskWithOuterAndInnerStar(mask: string)
    requires |mask| > 1 && '*' in Searched(mask).0 && (mask[0] == '*' || mask[|mask| - 1] == '*')
    ensures ParseMask(mask) == Err(MixedMask) && !AcceptableMask(mask)
  {
    var i := InnerStar(mask);
    var j := if mask[0] == '*' then 0 else |mask| - 1;
    TwoStarsNotAcceptable(mask, i, j);
    OuterAndInnerStarRejected(mask);
  }

  lemma MaskWithInnerStars(mask: string)
    requires |mask| > 1 && '*' in mask && mask[0] != '*' && mask[|mask| - 1] != '*'
    ensures ParseMask(mask) == ParseParts(mask)
    ensures ParseParts(mask).Ok? <==> AcceptableMask(mask)
  {
    assert WithoutLastStar(WithoutFirstStar(mask)) == mask;
    var split := Span(mask, {'*'});
    var rest := mask[split + 1..];
    assert IsStar(mask, split);
    if '*' in rest {
      var k :| 0 <= k < |rest| && rest[k] == '*';
      assert IsStar(mask, split + 1 + k);
    } else {
      assert forall i :: split < i < |mask| ==> mask[i] == rest[i - split - 1];
      assert forall i :: IsStar(mask, i) ==> i == split;
    }
  }

  /** A mask is accepted exactly when its stars are at its ends, or it has a single star. */
  lemma MaskAcceptedIff(mask: string)
    ensures ParseMask(mask).Ok? <==> AcceptableMask(mask)
  {
    if |mask| > 1 {
      if '*' !in Searched(mask).0 {
        MaskWithoutInnerStar(mask);
      } else if mask[0] == '*' || mask[|mask| - 1] == '*' {
        MaskWithOuterAndInnerStar(mask);
      } else {
        MaskWithInnerStars(mask);
      }
    }
  }

  /** The error for a mask that is not accepted: a star at an end beside an inner one, or two inner ones. */
  function MaskFault(mask: string): QueryError {
    if mask != "" && (mask[0] == '*' || mask[|mask| - 1] == '*') then MixedMask else TooManyParts
  }

  lemma MaskRejected(mask: string)
    requires !AcceptableMask(mask)
    ensures ParseMask(mask) == Err(MaskFault(mask))
  {
    assert |mask| > 1;
    if '*' !in Searched(mask).0 {
      MaskWithoutInnerStar(mask);
    } else if mask[0] == '*' || mask[|mask| - 1] == '*' {
      OuterAndInnerStarRejected(mask);
    } else {
      MaskWithInnerStars(mask);
    }
  }

  // ---- Which keys are accepted ----

  const NO_TEXT := "{}"

  /** The fault of a mask or a text search, the mask first. */
  ghost predicate Faulty(g: Groups, error: QueryError) {
    if !AcceptableMask(g.mask) then error == MaskFault(g.mask)
    else g.text == Some(NO_TEXT) && error == EmptyText
  }

  ghost predicate Faultless(g: Groups) {
    AcceptableMask(g.mask) && g.text != Some(NO_TEXT)
  }

  lemma TextAcceptedIff(text: Option<string>)
    requires text.Some? ==> IsTextGroup(text.value)
    ensures ParseOptionalText(text).Ok? <==> text != Some(NO_TEXT)
    ensures text == Some(NO_TEXT) ==> ParseOptionalText(text) == Err(EmptyText)
  {
  }

  /** A text without a closing parenthesis matches `SUB_QUERY_RE` exactly when it is a mask and a text
      search. */
  lemma InnerScanExact(inner: string, g: Groups)
    requires Free(inner, {')'})
    ensures Scan(inner, SUB_QUERY_STOPS) == Some(g)
            <==> Grammatical(g, SUB_QUERY_STOPS) && Join(g) == inner && g.sub.None?
  {
    ScanSound(inner, SUB_QUERY_STOPS);
    if Scan(inner, SUB_QUERY_STOPS) == Some(g) {
      FreeConcat(g.mask, Given(g.text) + Given(g.sub), {')'});
      FreeConcat(Given(g.text), Given(g.sub), {')'});
    }
    if Grammatical(g, SUB_QUERY_STOPS) && Join(g) == inner && g.sub.None? {
      ScanJoin(g, SUB_QUERY_STOPS);
    }
  }

  /** These are the groups of what stands between the parentheses of a sub query. */
  ghost predicate InnerGroups(inner: string, g: Groups) {
    Grammatical(g, SUB_QUERY_STOPS) && Join(g) == inner && g.sub.None?
  }

  ghost predicate InnerFaulty(inner: string, error: QueryError) {
    exists g :: InnerGroups(inner, g) && Faulty(g, error)
  }

  lemma FaultyIff(g: Groups, error: QueryError)
    requires g.text.Some? ==> IsTextGroup(g.text.value)
    ensures Faulty(g, error) <==>
            ParseMask(g.mask) == Err(error) || (ParseMask(g.mask).Ok? && ParseOptionalText(g.text) == Err(error))
  {
    MaskAcceptedIff(g.mask);
    TextAcceptedIff(g.text);
    if !AcceptableMask(g.mask) {
      MaskRejected(g.mask);
    }
  }

  lemma InnerGroupsAre(inner: string)
    requires Free(inner, {')'})
    ensures forall g :: InnerGroups(inner, g) <==> Scan(inner, SUB_QUERY_STOPS) == Some(g)
  {
    forall g ensures InnerGroups(inner, g) <==> Scan(inner, SUB_QUERY_STOPS) == Some(g) {
      InnerScanExact(inner, g);
    }
  }

  /** A sub query is rejected exactly for a fault of its mask or text. */
  lemma InnerErrorIff(inner: string, error: QueryError)
    requires Free(inner, {')'})
    ensures ParseInner(inner) == Err(error) <==> InnerFaulty(inner, error)
  {
    InnerGroupsAre(inner);
    var parts := Scan(inner, SUB_QUERY_STOPS);
    if parts.Some? {
      FaultyIff(parts.value, error);
      assert InnerGroups(inner, parts.value);
    }
  }

  /** A sub query outside of its grammar is read as any key. */
  lemma UngrammaticalInner(inner: string)
    requires Free(inner, {')'}) && (forall g :: !InnerGroups(inner, g))
    ensures ParseInner(inner) == Ok(SubQuery(AnyKey, None))
  {
    InnerGroupsAre(inner);
    assert forall g :: Scan(inner, SUB_QUERY_STOPS) != Some(g);
  }

  ghost predicate OnlySubQueryGiven(g: Groups) {
    g.mask == "" && g.text.None? && g.sub.Some?
  }

  function Inner(sub: string): string
    requires IsGroup(sub, "(", ')')
  {
    sub[1..|sub| - 1]
  }

  ghost predicate SubQueryFaulty(sub: string, error: QueryError)
    requires IsGroup(sub, "(", ')')
  {
    if sub == "()" then error == EmptySubQuery else InnerFaulty(Inner(sub), error)
  }

  lemma SubQueryErrorIff(sub: string, error: QueryError)
    requires IsGroup(sub, "(", ')')
    ensures ParseSubQuery(sub) == Err(error) <==> SubQueryFaulty(sub, error)
  {
    if sub != "()" {
      InnerErrorIff(Inner(sub), error);
    }
  }

  /** Why a key with these groups is rejected: it is a sub query alone, or its mask, its text or its sub
      query has a fault, in this order. */
  ghost predicate Rejects(g: Groups, error: QueryError)
    requires Grammatical(g, QUERY_STOPS)
  {
    if OnlySubQueryGiven(g) then error == OnlySubQuery
    else if !Faultless(g) then Faulty(g, error)
    else g.sub.Some? && SubQueryFaulty(g.sub.value, error)
  }

  lemma GroupsErrorIff(g: Groups, error: QueryError)
    requires Grammatical(g, QUERY_STOPS)
    ensures ParseGroups(g) == Err(error) <==> Rejects(g, error)
  {
    FaultyIff(g, error);
    MaskAcceptedIff(g.mask);
    TextAcceptedIff(g.text);
    if g.sub.Some? {
      SubQueryErrorIff(g.sub.value, error);
    }
  }

  ghost predicate KeyGroups(key: string, g: Groups) {
    Grammatical(g, QUERY_STOPS) && Join(g) == key
  }

  lemma KeyGroupsAre(key: string)
    ensures forall g :: KeyGroups(key, g) <==> Scan(key, QUERY_STOPS) == Some(g)
  {
    forall g ensures KeyGroups(key, g) <==> Scan(key, QUERY_STOPS) == Some(g) {
      ScanExact(key, g);
    }
  }

  ghost predicate KeyRejected(key: string, error: QueryError) {
    if exists g :: KeyGroups(key, g) then exists g :: KeyGroups(key, g) && Rejects(g, error)
    else error == InvalidQueryKey
  }

  /** A key is rejected with an error exactly when it is not grammatical, or its groups are rejected
      for that reason. */
  lemma KeyErrorIff(key: string, error: QueryError)
    ensures ParseQueryKey(key) == Err(error) <==> KeyRejected(key, error)
  {
    KeyGroupsAre(key);
    var parts := Scan(key, QUERY_STOPS);
    if parts.Some? {
      assert KeyGroups(key, parts.value);
      GroupsErrorIff(parts.value, error);
    }
  }

  ghost predicate InnerAcceptable(inner: string) {
    forall g :: InnerGroups(inner, g) ==> Faultless(g)
  }

  /** Masks and texts without a fault, no sub query alone, and no empty sub query. */
  ghost predicate Acceptable(g: Groups) {
    && Grammatical(g, QUERY_STOPS) && Faultless(g) && !OnlySubQueryGiven(g)
    && (g.sub.Some? ==> g.sub.value != "()" && InnerAcceptable(Inner(g.sub.value)))
  }

  lemma InnerAcceptedIff(inner: string)
    requires Free(inner, {')'})
    ensures ParseInner(inner).Ok? <==> InnerAcceptable(inner)
  {
    InnerGroupsAre(inner);
    var parts := Scan(inner, SUB_QUERY_STOPS);
    if parts.Some? {
      assert InnerGroups(inner, parts.value);
      MaskAcceptedIff(parts.value.mask);
      TextAcceptedIff(parts.value.text);
    }
  }

  lemma GroupsAcceptedIff(g: Groups)
    requires Grammatical(g, QUERY_STOPS)
    ensures ParseGroups(g).Ok? <==> Acceptable(g)
  {
    MaskAcceptedIff(g.mask);
    TextAcceptedIff(g.text);
    if g.sub.Some? && g.sub.value != "()" {
      InnerAcceptedIff(Inner(g.sub.value));
    }
  }

  /** A key is accepted exactly when it is made of acceptable groups. */
  lemma KeyAcceptedIff(key: string)
    ensures ParseQueryKey(key).Ok? <==> exists g :: KeyGroups(key, g) && Acceptable(g)
  {
    KeyGroupsAre(key);
    var parts := Scan(key, QUERY_STOPS);
    if parts.Some? {
      assert KeyGroups(key, parts.value);
      GroupsAcceptedIff(parts.value);
    }
  }

  /** A star that is not at an end. */
  ghost predicate HasInnerStar(mask: string) {
    exists i :: IsStar(mask, i) && 0 < i < |mask| - 1
  }

  lemma NoInnerStar(mask: string)
    requires |mask| > 1 && '*' !in Searched(mask).0
    ensures !HasInnerStar(mask) && ParseMask(mask).Ok? && !ParseMask(mask).value.Parts?
  {
    var searched, from := Searched(mask).0, Searched(mask).1;
    assert forall i :: 0 < i < |mask| - 1 ==> mask[i] == searched[i - from];
  }

  lemma InnerStarSplits(mask: string)
    requires |mask| > 1 && '*' in mask && mask[0] != '*' && mask[|mask| - 1] != '*' && ParseMask(mask).Ok?
    ensures HasInnerStar(mask) && ParseMask(mask).value.Parts?
  {
    MaskWithInnerStars(mask);
    assert IsStar(mask, Span(mask, {'*'}));
  }

  /** An accepted mask is split in two exactly when it has a star inside. */
  lemma SplitIff(mask: string)
    requires ParseMask(mask).Ok?
    ensures ParseMask(mask).value.Parts? <==> HasInnerStar(mask)
  {
    if |mask| > 1 {
      if '*' !in Searched(mask).0 {
        NoInnerStar(mask);
      } else if mask[0] == '*' || mask[|mask| - 1] == '*' {
        OuterAndInnerStarRejected(mask);
      } else {
        InnerStarSplits(mask);
      }
    }
  }

  // ---- Printing ----

  function PrintMask(m: Mask): string {
    match m
    case Prefix(prefix) => if prefix != "" then prefix + "*" else ""
    case Suffix(suffix) => if suffix != "" then "*" + suffix else ""
    case ContainsKey(core) => if core != "" then "*" + core + "*" else ""
    case ExactKey(exact) => exact
    case Parts(start, end) => start + "*" + end
    case AnyKey => "*"
  }

  function PrintText(text: Option<TextSearch>): string {
    match text
    case Some(ContainsText(part)) => if part != "" then "{" + part + "}" else ""
    case Some(EqualsText(whole)) => if whole != "" then "={" + whole + "}" else ""
    case None => ""
  }

  function PrintSubQuery(sub: SubQuery): string {
    PrintMask(sub.mask) + PrintText(sub.text)
  }

  function PrintOptionalSubQuery(sub: Option<SubQuery>): string {
    if sub.Some? then "(" + PrintSubQuery(sub.value) + ")" else ""
  }

  /** `queryToString`. */
  function Print(q: Query): string {
    PrintMask(q.mask) + PrintText(q.text) + PrintOptionalSubQuery(q.sub)
  }

  method AppendMask(key: string, mask: Mask) returns (r: string)
    ensures r == key + PrintMask(mask)
  {
    r := key;
    match mask {
      case Prefix(prefix) => if prefix != "" { r := r + (prefix + "*"); }
      case Suffix(suffix) => if suffix != "" { r := r + ("*" + suffix); }
      case ContainsKey(core) => if core != "" { r := r + ("*" + core + "*"); }
      case ExactKey(exact) => r := r + exact;
      case Parts(start, end) => r := r + (start + "*" + end);
      case AnyKey => r := r + "*";
    }
  }

  method AppendText(key: string, text: Option<TextSearch>) returns (r: string)
    ensures r == key + PrintText(text)
  {
    r := key;
    match text {
      case Some(ContainsText(part)) => if part != "" { r := r + ("{" + part + "}"); }
      case Some(EqualsText(whole)) => if whole != "" { r := r + ("={" + whole + "}"); }
      case None =>
    }
  }

  method QueryToString(query: Query) returns (key: string)
    ensures key == Print(query)
    decreases if query.sub.Some? then 1 else 0
  {
    key := AppendMask("", query.mask);
    key := AppendText(key, query.text);
    if query.sub.Some? {
      var sub := QueryToString(Query(query.sub.value.mask, query.sub.value.text, None));
      key := key + ("(" + sub + ")");
    }
  }

  // ---- Which queries the parser can produce ----

  predicate Piece(s: string, stop: set<char>) {
    s != "" && Free(s, stop + {'*'})
  }

  /** The mask of some key whose mask has none of the stop characters. */
  predicate ShapedMask(m: Mask, stop: set<char>) {
    match m
    case AnyKey => true
    case Suffix(suffix) => Piece(suffix, stop)
    case Prefix(prefix) => Piece(prefix, stop)
    case ContainsKey(core) => Free(core, stop + {'*'})
    case ExactKey(exact) => Piece(exact, stop)
    case Parts(start, end) => Piece(start, stop) && Piece(end, stop)
  }

  predicate ShapedText(text: Option<TextSearch>, stop: set<char>) {
    match text
    case Some(ContainsText(part)) => part != "" && Free(part, stop + {'}'})
    case Some(EqualsText(whole)) => Free(whole, stop + {'}'})
    case None => true
  }

  predicate ShapedSubQuery(sub: SubQuery) {
    ShapedMask(sub.mask, SUB_QUERY_STOPS + {')'}) && ShapedText(sub.text, {')'})
  }

  predicate Shaped(q: Query) {
    && ShapedMask(q.mask, QUERY_STOPS)
    && ShapedText(q.text, {})
    && (q.sub.Some? ==> ShapedSubQuery(q.sub.value))
  }

  lemma FreeConcat(a: string, b: string, stop: set<char>)
    ensures Free(a + b, stop) <==> Free(a, stop) && Free(b, stop)
  {
    assert forall i :: 0 <= i < |a| ==> (a + b)[i] == a[i];
    assert forall i :: 0 <= i < |b| ==> (a + b)[|a| + i] == b[i];
  }

  function StarIf(b: bool): string {
    if b then "*" else ""
  }

  lemma SearchedInMiddle(mask: string)
    requires |mask| > 1
    ensures mask == StarIf(mask[0] == '*') + Searched(mask).0 + StarIf(mask[|mask| - 1] == '*')
  {
  }

  lemma SplitAtStar(s: string)
    requires '*' in s && ParseParts(s).Ok?
    ensures ParseParts(s).value.Parts?
    ensures s == ParseParts(s).value.start + "*" + ParseParts(s).value.end
    ensures Free(ParseParts(s).value.start, {'*'}) && Free(ParseParts(s).value.end, {'*'})
  {
  }

  /** A mask put together from its parsed pieces. */
  function Spelled(m: Mask): string {
    match m
    case AnyKey => "*"
    case Suffix(suffix) => "*" + suffix
    case Prefix(prefix) => prefix + "*"
    case ContainsKey(core) => "*" + core + "*"
    case ExactKey(exact) => exact
    case Parts(start, end) => start + "*" + end
  }

  lemma PartsForm(mask: string)
    requires |mask| > 1 && '*' in mask && mask[0] != '*' && mask[|mask| - 1] != '*' && ParseParts(mask).Ok?
    ensures ShapedMask(ParseParts(mask).value, {}) && mask == Spelled(ParseParts(mask).value)
  {
    SplitAtStar(mask);
    var parts := ParseParts(mask).value;
    var joined := parts.start + "*" + parts.end;
    assert mask == joined && mask[0] == joined[0] && mask[|mask| - 1] == joined[|joined| - 1];
  }

  lemma FlatSpelled(searched: string, suffixed: bool, prefixed: bool)
    requires '*' !in searched && (searched != "" || (suffixed && prefixed))
    ensures Spelled(FlatMask(searched, suffixed, prefixed)) == StarIf(suffixed) + searched + StarIf(prefixed)
    ensures ShapedMask(FlatMask(searched, suffixed, prefixed), {})
  {
    assert "" + searched == searched && searched + "" == searched;
  }

  lemma FlatForm(mask: string)
    requires |mask| > 1 && '*' !in Searched(mask).0
    ensures ParseMask(mask) == Ok(FlatMask(Searched(mask).0, mask[0] == '*', mask[|mask| - 1] == '*'))
    ensures Searched(mask).0 != "" || (mask[0] == '*' && mask[|mask| - 1] == '*')
  {
    assert mask != "*";
  }

  /** What an accepted mask of more than one character looks like. */
  lemma MaskForms(mask: string)
    requires |mask| > 1 && ParseMask(mask).Ok?
    ensures ShapedMask(ParseMask(mask).value, {}) && !ParseMask(mask).value.AnyKey?
    ensures mask == Spelled(ParseMask(mask).value)
  {
    if '*' !in Searched(mask).0 {
      SearchedInMiddle(mask);
      FlatForm(mask);
      FlatSpelled(Searched(mask).0, mask[0] == '*', mask[|mask| - 1] == '*');
    } else if mask[0] == '*' || mask[|mask| - 1] == '*' {
      OuterAndInnerStarRejected(mask);
    } else {
      MaskWithInnerStars(mask);
      PartsForm(mask);
    }
  }

  lemma ParsedMaskShaped(mask: string, stop: set<char>)
    requires Free(mask, stop) && ParseMask(mask).Ok?
    ensures ShapedMask(ParseMask(mask).value, stop)
  {
    if |mask| > 1 {
      MaskForms(mask);
      match ParseMask(mask).value
      case Suffix(suffix) => FreeConcat("*", suffix, stop);
      case Prefix(prefix) => FreeConcat(prefix, "*", stop);
      case ContainsKey(core) => FreeConcat("*" + core, "*", stop); FreeConcat("*", core, stop);
      case ExactKey(_) =>
      case Parts(start, end) => FreeConcat(start + "*", end, stop); FreeConcat(start, "*", stop);
    }
  }

  lemma ParsedTextShaped(text: Option<string>, stop: set<char>)
    requires text.Some? ==> IsTextGroup(text.value) && Free(text.value, stop)
    requires ParseOptionalText(text).Ok?
    ensures ShapedText(ParseOptionalText(text).value, stop)
  {
  }

  lemma ParsedSubQueryShaped(s: string)
    requires IsGroup(s, "(", ')') && ParseSubQuery(s).Ok?
    ensures ShapedSubQuery(ParseSubQuery(s).value)
  {
    var inner := s[1..|s| - 1];
    ScanSound(inner, SUB_QUERY_STOPS);
    if Scan(inner, SUB_QUERY_STOPS).Some? {
      var g := Scan(inner, SUB_QUERY_STOPS).value;
      FreeConcat(g.mask, Given(g.text) + Given(g.sub), {')'});
      FreeConcat(Given(g.text), Given(g.sub), {')'});
      ParsedMaskShaped(g.mask, SUB_QUERY_STOPS + {')'});
      ParsedTextShaped(g.text, {')'});
    }
  }

  lemma ParsedShaped(key: string)
    requires ParseQueryKey(key).Ok?
    ensures Shaped(ParseQueryKey(key).value)
  {
    var g := Scan(key, QUERY_STOPS).value;
    ParsedMaskShaped(g.mask, QUERY_STOPS);
    ParsedTextShaped(g.text, {});
    if g.sub.Some? {
      ParsedSubQueryShaped(g.sub.value);
    }
  }

  // ---- Printing and parsing again ----

  /** A mask and a text search that the printer does not drop. */
  predicate PrintableMask(m: Mask) {
    m != ContainsKey("")
  }

  predicate PrintableText(text: Option<TextSearch>) {
    text != Some(EqualsText(""))
  }

  predicate PrintableSubQuery(sub: Option<SubQuery>) {
    sub.Some? ==> PrintableMask(sub.value.mask) && PrintableText(sub.value.text)
  }

  /** No contains mask without a core and no empty text. */
  predicate Printable(q: Query) {
    PrintableMask(q.mask) && PrintableText(q.text) && PrintableSubQuery(q.sub)
  }

  function ReadMask(m: Mask): Mask {
    if PrintableMask(m) then m else AnyKey
  }

  function ReadText(text: Option<TextSearch>): Option<TextSearch> {
    if PrintableText(text) then text else None
  }

  lemma PrintedMaskParses(m: Mask, stop: set<char>)
    requires ShapedMask(m, stop) && '*' !in stop
    ensures Free(PrintMask(m), stop) && ParseMask(PrintMask(m)) == Ok(ReadMask(m))
    ensures PrintMask(m) == "" <==> !PrintableMask(m)
  {
    var mask := PrintMask(m);
    match m
    case AnyKey =>
    case Suffix(suffix) => assert WithoutLastStar(WithoutFirstStar(mask)) == suffix;
    case Prefix(prefix) => assert WithoutLastStar(WithoutFirstStar(mask)) == prefix;
    case ContainsKey(core) => assert core != "" ==> WithoutLastStar(WithoutFirstStar(mask)) == core;
    case ExactKey(exact) => assert WithoutLastStar(WithoutFirstStar(mask)) == exact;
    case Parts(start, end) => PrintedPartsParse(start, end, stop);
  }

  lemma PrintedPartsParse(start: string, end: string, stop: set<char>)
    requires Piece(start, stop) && Piece(end, stop) && '*' !in stop
    ensures Free(start + "*" + end, stop)
    ensures ParseMask(start + "*" + end) == Ok(Parts(start, end))
  {
    var mask := start + "*" + end;
    assert WithoutLastStar(WithoutFirstStar(mask)) == mask && mask[|start|] == '*';
    SpanUnique(mask, {'*'}, |start|);
    assert mask[..|start|] == start && mask[|start| + 1..] == end;
  }

  /** Every accepted mask but the empty one and `**` is printed back as it was. */
  lemma MaskPrintsBackIff(mask: string)
    requires ParseMask(mask).Ok?
    ensures PrintMask(ParseMask(mask).value) == mask <==> mask != "" && mask != "**"
  {
    if |mask| > 1 {
      MaskForms(mask);
    }
  }

  function TextGroupOf(text: Option<TextSearch>): Option<string> {
    if PrintText(text) == "" then None else Some(PrintText(text))
  }

  lemma PrintedTextParses(text: Option<TextSearch>, stop: set<char>)
    requires ShapedText(text, stop) && stop <= {')'}
    ensures TextGroupOf(text).Some? ==> IsTextGroup(PrintText(text)) && Free(PrintText(text), stop)
    ensures ParseOptionalText(TextGroupOf(text)) == Ok(ReadText(text))
    ensures TextGroupOf(text).None? <==> ReadText(text).None?
  {
    match text
    case Some(ContainsText(part)) =>
      var g := "{" + part + "}";
      assert g[1..|g| - 1] == part;
    case Some(EqualsText(whole)) =>
      var g := "={" + whole + "}";
      assert g[2..|g| - 1] == whole;
    case None =>
  }

  /** The groups of a printed sub query, without its parentheses. */
  function SubQueryGroups(sub: SubQuery): Groups {
    Groups(PrintMask(sub.mask), TextGroupOf(sub.text), None)
  }

  lemma PrintedSubQueryScan(sub: SubQuery)
    requires ShapedSubQuery(sub)
    ensures Free(PrintSubQuery(sub), {')'})
    ensures Scan(PrintSubQuery(sub), SUB_QUERY_STOPS) == Some(SubQueryGroups(sub))
  {
    PrintedMaskParses(sub.mask, SUB_QUERY_STOPS + {')'});
    PrintedTextParses(sub.text, {')'});
    FreeConcat(PrintMask(sub.mask), PrintText(sub.text), {')'});
    assert PrintSubQuery(sub) == Join(SubQueryGroups(sub));
    ScanJoin(SubQueryGroups(sub), SUB_QUERY_STOPS);
  }

  lemma PrintedInnerParses(sub: SubQuery)
    requires ShapedSubQuery(sub)
    ensures ParseInner(PrintSubQuery(sub)) == Ok(SubQuery(ReadMask(sub.mask), ReadText(sub.text)))
  {
    PrintedSubQueryScan(sub);
    PrintedMaskParses(sub.mask, SUB_QUERY_STOPS);
    PrintedTextParses(sub.text, {')'});
  }

  lemma Parenthesised(inner: string)
    requires Free(inner, {')'})
    ensures IsGroup("(" + inner + ")", "(", ')')
    ensures ParseSubQuery("(" + inner + ")") == if inner == "" then Err(EmptySubQuery) else ParseInner(inner)
  {
    var s := "(" + inner + ")";
    assert s[1..|s| - 1] == inner;
  }

  lemma PrintedSubQueryEmptyIff(sub: SubQuery)
    requires ShapedSubQuery(sub)
    ensures PrintSubQuery(sub) == "" <==> !PrintableMask(sub.mask) && ReadText(sub.text).None?
  {
    PrintedMaskParses(sub.mask, SUB_QUERY_STOPS);
    PrintedTextParses(sub.text, {')'});
  }

  lemma PrintedSubQueryParses(sub: SubQuery)
    requires ShapedSubQuery(sub)
    ensures IsGroup("(" + PrintSubQuery(sub) + ")", "(", ')')
    ensures ParseSubQuery("(" + PrintSubQuery(sub) + ")") ==
            if !PrintableMask(sub.mask) && ReadText(sub.text).None? then Err(EmptySubQuery)
            else Ok(SubQuery(ReadMask(sub.mask), ReadText(sub.text)))
  {
    PrintedSubQueryScan(sub);
    PrintedInnerParses(sub);
    PrintedSubQueryEmptyIff(sub);
    Parenthesised(PrintSubQuery(sub));
  }

  /** What the parser makes of a printed query. */
  function ReadBack(q: Query): Result<Query, QueryError> {
    var mask, text := ReadMask(q.mask), ReadText(q.text);
    if q.sub.None? then Ok(Query(mask, text, None))
    else if !PrintableMask(q.mask) && text.None? then Err(OnlySubQuery)
    else if !PrintableMask(q.sub.value.mask) && ReadText(q.sub.value.text).None? then Err(EmptySubQuery)
    else Ok(Query(mask, text, Some(SubQuery(ReadMask(q.sub.value.mask), ReadText(q.sub.value.text)))))
  }

  function PrintedGroups(q: Query): Groups {
    Groups(PrintMask(q.mask), TextGroupOf(q.text), if q.sub.Some? then Some(PrintOptionalSubQuery(q.sub)) else None)
  }

  lemma PrintedGrammatical(q: Query)
    requires Shaped(q)
    ensures Grammatical(PrintedGroups(q), QUERY_STOPS)
  {
    PrintedMaskParses(q.mask, QUERY_STOPS);
    PrintedTextParses(q.text, {});
    if q.sub.Some? {
      PrintedSubQueryParses(q.sub.value);
    }
  }

  lemma PrintedJoin(q: Query)
    ensures Print(q) == Join(PrintedGroups(q))
  {
  }

  lemma ConcatAssociative(a: string, b: string, c: string)
    ensures a + b + c == a + (b + c)
  {
  }

  lemma PrintedScan(q: Query)
    requires Shaped(q)
    ensures Scan(Print(q), QUERY_STOPS) == Some(PrintedGroups(q))
  {
    PrintedGrammatical(q);
    PrintedJoin(q);
    ScanJoin(PrintedGroups(q), QUERY_STOPS);
  }

  lemma PrintedGroupsParse(q: Query)
    requires Shaped(q) && Grammatical(PrintedGroups(q), QUERY_STOPS)
    ensures ParseGroups(PrintedGroups(q)) == ReadBack(q)
  {
    PrintedMaskParses(q.mask, QUERY_STOPS);
    PrintedTextParses(q.text, {});
    if q.sub.Some? {
      PrintedSubQueryParses(q.sub.value);
    }
  }

  lemma ParsePrint(q: Query)
    requires Shaped(q)
    ensures ParseQueryKey(Print(q)) == ReadBack(q)
  {
    PrintedScan(q);
    PrintedGrammatical(q);
    PrintedGroupsParse(q);
  }

  lemma ReadBackIff(q: Query)
    ensures ReadBack(q) == Ok(q) <==> Printable(q)
  {
  }

  /** The parser inverts the printer exactly on the queries whose pieces are free of the characters
      that end them, and whose masks and texts are not empty. */
  lemma {:induction false} ParsePrintIff(q: Query)
    ensures ParseQueryKey(Print(q)) == Ok(q) <==> Shaped(q) && Printable(q)
  {
    if ParseQueryKey(Print(q)) == Ok(q) {
      ParsedShaped(Print(q));
    }
    if Shaped(q) {
      ParsePrint(q);
      ReadBackIff(q);
    }
  }

  // ---- The keys whose queries survive printing ----

  const DOUBLE_STAR := "**"
  const EMPTY_TEXT := "={}"

  /** The mask group is not `**` and the text group is not `={}`. */
  predicate SolidGroups(g: Groups) {
    g.mask != DOUBLE_STAR && g.text != Some(EMPTY_TEXT)
  }

  /** The same for what stands between the parentheses of a sub query. */
  predicate SolidInner(inner: string) {
    var parts := Scan(inner, SUB_QUERY_STOPS);
    parts.Some? ==> SolidGroups(parts.value)
  }

  predicate SolidSubQuery(sub: Option<string>)
    requires sub.Some? ==> IsGroup(sub.value, "(", ')')
  {
    sub.Some? ==> SolidInner(sub.value[1..|sub.value| - 1])
  }

  /** A key without the mask `**` and the text `={}`, outside and inside of its sub query. */
  predicate Solid(key: string) {
    var parts := Scan(key, QUERY_STOPS);
    parts.Some? ==> SolidGroups(parts.value) && SolidSubQuery(parts.value.sub)
  }

  lemma SolidMaskIff(mask: string)
    requires ParseMask(mask).Ok?
    ensures PrintableMask(ParseMask(mask).value) <==> mask != DOUBLE_STAR
  {
    if |mask| > 1 {
      MaskForms(mask);
    }
  }

  lemma SolidTextIff(text: Option<string>)
    requires text.Some? ==> IsTextGroup(text.value)
    requires ParseOptionalText(text).Ok?
    ensures PrintableText(ParseOptionalText(text).value) <==> text != Some(EMPTY_TEXT)
  {
    if text.Some? {
      var t := text.value;
      assert EMPTY_TEXT[0] == '=' && (t[0] == '{' || "={" <= t);
      assert t == EMPTY_TEXT <==> t[0] != '{' && |t| == 3;
    }
  }

  lemma SolidInnerIff(inner: string)
    requires ParseInner(inner).Ok?
    ensures PrintableMask(ParseInner(inner).value.mask) && PrintableText(ParseInner(inner).value.text)
            <==> SolidInner(inner)
  {
    var parts := Scan(inner, SUB_QUERY_STOPS);
    if parts.Some? {
      SolidMaskIff(parts.value.mask);
      SolidTextIff(parts.value.text);
    }
  }

  lemma SolidSubQueryIff(sub: Option<string>)
    requires sub.Some? ==> IsGroup(sub.value, "(", ')')
    requires ParseOptionalSubQuery(sub).Ok?
    ensures PrintableSubQuery(ParseOptionalSubQuery(sub).value) <==> SolidSubQuery(sub)
  {
    if sub.Some? {
      SolidInnerIff(sub.value[1..|sub.value| - 1]);
    }
  }

  lemma SolidGroupsIff(g: Groups)
    requires Grammatical(g, QUERY_STOPS) && ParseGroups(g).Ok?
    ensures Printable(ParseGroups(g).value) <==> SolidGroups(g) && SolidSubQuery(g.sub)
  {
    SolidMaskIff(g.mask);
    SolidTextIff(g.text);
    SolidSubQueryIff(g.sub);
  }

  /** The query of an accepted key has no empty piece that the printer drops exactly when the key is
      solid. */
  lemma SolidIff(key: string)
    requires ParseQueryKey(key).Ok?
    ensures Printable(ParseQueryKey(key).value) <==> Solid(key)
  {
    SolidGroupsIff(Scan(key, QUERY_STOPS).value);
  }

  /** Printing the query of an accepted key and parsing again gives the same query exactly when the
      key has no mask `**` and no text `={}`. */
  lemma {:induction false} ReparseIff(key: string)
    requires ParseQueryKey(key).Ok?
    ensures ParseQueryKey(Print(ParseQueryKey(key).value)) == ParseQueryKey(key) <==> Solid(key)
  {
    ParsedShaped(key);
    ParsePrintIff(ParseQueryKey(key).value);
    SolidIff(key);
  }

  /** The key `**` is printed as the empty key, which is read as any key. */
  lemma DoubleStarIsLost()
    ensures ParseQueryKey(DOUBLE_STAR) == Ok(Query(ContainsKey(""), None, None))
    ensures Print(Query(ContainsKey(""), None, None)) == ""
    ensures ParseQueryKey("") == Ok(Query(AnyKey, None, None))
  {
    var g, empty := Groups(DOUBLE_STAR, None, None), Groups("", None, None);
    assert Join(g) == DOUBLE_STAR && Join(empty) == "";
    ScanJoin(g, QUERY_STOPS);
    ScanJoin(empty, QUERY_STOPS);
    assert WithoutLastStar(WithoutFirstStar(DOUBLE_STAR)) == "";
  }
}
