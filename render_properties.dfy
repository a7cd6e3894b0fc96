/** What the rendering rules promise, stated over the whole `Value` type. */
module RenderProperties {
  import opened Wrappers
  import opened Decimal
  import opened Joining
  import opened Renderer

  /**
   * Text is wrapped in double quotes with no escaping; a non-null C string
   * renders as the same characters would in a `std::string`, a null one as `null`.
   */
  lemma TextRendersQuoted(s: string)
    ensures Render(VStr(s)) == Render(VCStr(Some(s)))
    ensures |Render(VStr(s))| == |s| + 2
    ensures Render(VStr(s))[0] == '"' && Render(VStr(s))[|s| + 1] == '"'
    ensures Render(VStr(s))[1..|s| + 1] == s
    ensures Render(VCStr(None)) == "null"
    ensures RenderElement(VStr(s)) == Render(VStr(s))
  {
  }

  /** A bool is the word `true` or `false`, on its own and inside a container. */
  lemma BoolRendersAsWord(b: bool)
    ensures Render(VBool(b)) == (if b then "true" else "false")
    ensures RenderElement(VBool(b)) == Render(VBool(b))
    ensures Render(VBool(b)) != "1" && Render(VBool(b)) != "0"
  {
  }

  /** An integer element prints as its decimal numeral, like the integer on its own. */
  lemma IntRendersDecimal(n: int)
    ensures Render(VInt(n)) == RenderElement(VInt(n)) == DecimalText(n)
    ensures ParseDecimal(Render(VInt(n))) == n
  {
    DecimalRoundTrip(n);
  }

  /**
   * A char on its own is streamed as the character itself, but as a
   * container element it goes through `std::to_string` and prints as its
   * numeric code; the two never coincide.
   */
  lemma {:induction false} CharElementIsCode(c: char)
    ensures Render(VChar(c)) == [c]
    ensures RenderElement(VChar(c)) == DecimalText(c as int)
    ensures ParseDecimal(RenderElement(VChar(c))) == c as int
    ensures RenderElement(VChar(c)) != Render(VChar(c))
  {
    DecimalRoundTrip(c as int);
    var d := NatDigits(c as int);
    if |d| == 1 {
      assert c as int < 10;
      assert d[0] == DigitChar(c as int);
    }
  }

  /** Only a char renders differently as a container element than on its own. */
  lemma ElementDiffersOnlyForChar(v: Value)
    ensures RenderElement(v) == Render(v) <==> !v.VChar?
  {
    if v.VChar? {
      CharElementIsCode(v.c);
    }
  }

  /** `nullopt` when empty, otherwise the inner value inside `optional(...)`. */
  lemma OptionalRendering(o: Option<Value>)
    ensures o.None? ==> Render(VOpt(o)) == "nullopt"
    ensures o.Some? ==> Render(VOpt(o)) == "optional(" + Render(o.value) + ")"
  {
  }

  /** A pair renders exactly as the two-element tuple of its components. */
  lemma PairIsTupleOfTwo(a: Value, b: Value)
    ensures Render(VPair(a, b)) == Render(VTuple([a, b]))
    ensures Render(VPair(a, b)) == "(" + Render(a) + ", " + Render(b) + ")"
  {
    var parts := TupleParts([a, b]);
    TuplePartAt([a, b], 0);
    TuplePartAt([a, b], 1);
    assert parts == [Render(a), Render(b)];
    assert Join(parts, Comma) == Render(a) + Comma + Render(b);
  }

  /** The empty tuple, container and map render as `()`, `[]` and `{}`. */
  lemma EmptyCollections()
    ensures Render(VTuple([])) == "()"
    ensures Render(VSeq([])) == "[]"
    ensures Render(VMap([])) == "{}"
  {
  }

  /** A one-element container shows just that element's text between the brackets. */
  lemma SingletonList(x: Value)
    ensures Render(VSeq([x])) == "[" + RenderElement(x) + "]"
  {
    assert ListParts([x]) == [RenderElement(x)];
  }

  /**
   * Element i of a container, rendered as an element, stands whole in the
   * container's text right after the opening bracket and the texts (and
   * separators) of the elements before it: elements appear in iteration
   * order, each once.
   */
  lemma ListElementAt(es: seq<Value>, i: nat)
    requires i < |es|
    ensures var at := 1 + Offset(ListParts(es), Comma, i);
      at + |RenderElement(es[i])| < |Render(VSeq(es))| &&
      Render(VSeq(es))[at..at + |RenderElement(es[i])|] == RenderElement(es[i])
  {
    ListPartAt(es, i);
    BracketedAt(Render(VSeq(es)), "[", ListParts(es), Comma, "]", i, RenderElement(es[i]), 1 + Offset(ListParts(es), Comma, i));
  }

  /** Element i of a tuple stands whole at its own offset, in positional order. */
  lemma TupleElementAt(es: seq<Value>, i: nat)
    requires i < |es|
    ensures var at := 1 + Offset(TupleParts(es), Comma, i);
      at + |Render(es[i])| < |Render(VTuple(es))| &&
      Render(VTuple(es))[at..at + |Render(es[i])|] == Render(es[i])
  {
    TuplePartAt(es, i);
    BracketedAt(Render(VTuple(es)), "(", TupleParts(es), Comma, ")", i, Render(es[i]), 1 + Offset(TupleParts(es), Comma, i));
  }

  /**
   * Entry i of a map, as `key: value`, stands whole at its own offset: every
   * entry appears, in iteration order, each once.
   */
  lemma MapEntryAt(kvs: seq<(Value, Value)>, i: nat)
    requires i < |kvs|
    ensures var at := 1 + Offset(MapParts(kvs), Comma, i);
      at + |EntryText(kvs[i])| < |Render(VMap(kvs))| && Render(VMap(kvs))[at..at + |EntryText(kvs[i])|] == EntryText(kvs[i])
  {
    MapPartAt(kvs, i);
    BracketedAt(Render(VMap(kvs)), "{", MapParts(kvs), Comma, "}", i, EntryText(kvs[i]), 1 + Offset(MapParts(kvs), Comma, i));
  }

  /**
   * The shape of a value decides the first character of its text, so a map
   * never renders as a list, a string never as a list of characters, and a
   * tuple or pair never as either.
   */
  lemma ShapeMarkers(v: Value)
    ensures |Render(v)| > 0
    ensures v.VMap? ==> Render(v)[0] == '{'
    ensures v.VSeq? ==> Render(v)[0] == '['
    ensures v.VTuple? || v.VPair? ==> Render(v)[0] == '('
    ensures v.VStr? || (v.VCStr? && v.ptr.Some?) ==> Render(v)[0] == '"'
    ensures v.VUnprintable? ==> Render(v) == "<unprintable>"
  {
    if v.VInt? {
      DecimalRoundTrip(v.n);
    }
  }

  /** A map-like value and a text value are never mistaken for a container. */
  lemma NotRenderedAsList(s: string, kvs: seq<(Value, Value)>, es: seq<Value>)
    ensures Render(VStr(s)) != Render(VSeq(es))
    ensures Render(VMap(kvs)) != Render(VSeq(es))
  {
    ShapeMarkers(VStr(s));
    ShapeMarkers(VMap(kvs));
    ShapeMarkers(VSeq(es));
  }
}
