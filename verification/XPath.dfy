/** The part of XPath 1.0 that element paths are compiled to. The functions are those of section 4.2 of
    XPath 1.0; a string is a plain sequence of characters, so quoting does not arise. */
module XPaths {
  import opened Common

  /** An element: the attribute of the element path if it has one, its string value, its descendants. */
  datatype Node = Node(attribute: Option<string>, text: string, descendants: seq<Node>)

  datatype Text =
    | Attribute
    | Self
    | Literal(s: string)
    | Substring(of: Text, from: Number)

  datatype Number =
    | Constant(n: int)
    | StringLength(of: Text)
    | Plus(left: Number, right: Number)
    | Minus(left: Number, right: Number)

  datatype Condition =
    | HasAttribute
    | AttributeEquals(s: string)
    | StartsWith(whole: Text, start: Text)
    | Contains(whole: Text, part: Text)
    | Equal(left: Text, right: Text)
    | Greater(more: Number, less: Number)
    | Descendant(conditions: seq<Condition>)

  /** `substring(s, from)`: the characters whose position, counted from 1, is at least `from`. */
  function SubstringFrom(s: string, from: int): string {
    if from <= 1 then s else if from > |s| then "" else s[from - 1..]
  }

  ghost predicate HasPart(s: string, part: string) {
    exists i :: 0 <= i <= |s| && part <= s[i..]
  }

  /** A missing attribute is an empty node set, whose string value is empty. */
  function StringValue(e: Text, node: Node): string {
    match e
    case Attribute => if node.attribute.Some? then node.attribute.value else ""
    case Self => node.text
    case Literal(s) => s
    case Substring(of, from) => SubstringFrom(StringValue(of, node), NumberValue(from, node))
  }

  function NumberValue(e: Number, node: Node): int {
    match e
    case Constant(n) => n
    case StringLength(of) => |StringValue(of, node)|
    case Plus(left, right) => NumberValue(left, node) + NumberValue(right, node)
    case Minus(left, right) => NumberValue(left, node) - NumberValue(right, node)
  }

  ghost predicate Holds(c: Condition, node: Node)
    decreases c
  {
    match c
    case HasAttribute => node.attribute.Some?
    case AttributeEquals(s) => node.attribute == Some(s)
    case StartsWith(whole, start) => StringValue(start, node) <= StringValue(whole, node)
    case Contains(whole, part) => HasPart(StringValue(whole, node), StringValue(part, node))
    case Equal(left, right) => StringValue(left, node) == StringValue(right, node)
    case Greater(more, less) => NumberValue(more, node) > NumberValue(less, node)
    case Descendant(conditions) =>
      exists i :: 0 <= i < |node.descendants| && AllHold(conditions, node.descendants[i])
  }

  ghost predicate AllHold(conditions: seq<Condition>, node: Node)
    decreases conditions
  {
    forall i :: 0 <= i < |conditions| ==> Holds(conditions[i], node)
  }

  lemma AllHoldConcat(a: seq<Condition>, b: seq<Condition>, node: Node)
    ensures AllHold(a + b, node) <==> AllHold(a, node) && AllHold(b, node)
  {
    assert forall i :: 0 <= i < |a| ==> (a + b)[i] == a[i];
    assert forall i :: 0 <= i < |b| ==> (a + b)[|a| + i] == b[i];
  }
}
