/**
 * The value renderer: the `ToString` overload family of leetcode_testkit.h.
 *
 * In C++ the overload is chosen at compile time from the static type of the
 * value; here each shape the overloads and the trait dispatch tell apart is
 * one constructor of `Value`, so the precedence of the trait checks
 * (map-like before iterable, `std::string` never iterable, pairs never
 * streamed) is fixed by which constructor a value is built with.
 */
module Renderer {
  import opened Wrappers
  import opened Decimal
  import opened Joining

  datatype Value =
    | VStr(s: string)                    // std::string
    | VCStr(ptr: Option<string>)         // const char*, None for a null pointer
    | VBool(b: bool)
    | VInt(n: int)                       // an integral type other than bool and the character types
    | VChar(c: char)                     // char, signed char, unsigned char (so int8_t, uint8_t): a character on its own, its code in a container
    | VOpt(opt: Option<Value>)           // std::optional
    | VPair(first: Value, second: Value) // std::pair
    | VTuple(elems: seq<Value>)          // std::tuple, elements in positional order
    | VSeq(elems: seq<Value>)            // an iterable that is neither a string nor map-like, in iteration order
    | VMap(entries: seq<(Value, Value)>) // a type with key_type and mapped_type, in iteration order
    | VUnprintable                       // not map-like, not iterable, not streamable

  const Sentinel := "<unprintable>"
  const Comma := ", "

  function Quote(s: string): string { "\"" + s + "\"" }

  /**
   * The intended text of a value: what the matching `ToString` overload
   * produces when every overload is visible at every call. For an optional
   * holding a pair or tuple, or a pair or tuple holding a tuple, the header as
   * written differs; `NameLookup.RenderAt` models that.
   */
  function Render(v: Value): string
    decreases v, 1
  {
    match v
    case VStr(s) => Quote(s)
    case VCStr(p) => if p.None? then "null" else Quote(p.value)
    case VBool(b) => if b then "true" else "false"
    case VInt(n) => DecimalText(n)
    case VChar(c) => [c]
    case VOpt(o) => if o.None? then "nullopt" else "optional(" + Render(o.value) + ")"
    case VPair(a, b) => "(" + Render(a) + Comma + Render(b) + ")"
    case VTuple(es) => "(" + Join(TupleParts(es), Comma) + ")"
    case VSeq(es) => "[" + Join(ListParts(es), Comma) + "]"
    case VMap(kvs) => "{" + Join(MapParts(kvs), Comma) + "}"
    case VUnprintable => Sentinel
  }

  /**
   * The text of one element of a sequence container (`detail::ToStringElement`):
   * integral elements other than bool go through `std::to_string`, so a char
   * shows its numeric code; everything else renders as on its own.
   */
  function RenderElement(v: Value): string
    decreases v, 2
  {
    match v
    case VInt(n) => DecimalText(n)
    case VChar(c) => DecimalText(c as int)
    case _ => Render(v)
  }

  function TupleParts(es: seq<Value>): (r: seq<string>)
    decreases es
    ensures |r| == |es|
  {
    if es == [] then [] else TupleParts(es[..|es| - 1]) + [Render(es[|es| - 1])]
  }

  /** Part i of a tuple is the text of element i. */
  lemma {:induction false} TuplePartAt(es: seq<Value>, i: nat)
    requires i < |es|
    ensures TupleParts(es)[i] == Render(es[i])
  {
    if i < |es| - 1 {
      TuplePartAt(es[..|es| - 1], i);
    }
  }

  /** Extending the prefix by one element adds that element's part. */
  lemma TuplePartsSnoc(es: seq<Value>, i: nat)
    requires i < |es|
    ensures TupleParts(es[..i + 1]) == TupleParts(es[..i]) + [Render(es[i])]
  {
    assert es[..i + 1][..i] == es[..i];
  }

  function ListParts(es: seq<Value>): (r: seq<string>)
    decreases es
    ensures |r| == |es|
  {
    if es == [] then [] else ListParts(es[..|es| - 1]) + [RenderElement(es[|es| - 1])]
  }

  /** Part i of a container is the element text of element i. */
  lemma {:induction false} ListPartAt(es: seq<Value>, i: nat)
    requires i < |es|
    ensures ListParts(es)[i] == RenderElement(es[i])
  {
    if i < |es| - 1 {
      ListPartAt(es[..|es| - 1], i);
    }
  }

  /** Extending the prefix by one element adds that element's part. */
  lemma ListPartsSnoc(es: seq<Value>, i: nat)
    requires i < |es|
    ensures ListParts(es[..i + 1]) == ListParts(es[..i]) + [RenderElement(es[i])]
  {
    assert es[..i + 1][..i] == es[..i];
  }

  /** One map entry: `ToString(kv.first) << ": " << ToString(kv.second)`. */
  function EntryText(kv: (Value, Value)): string
    decreases kv
  {
    Render(kv.0) + ": " + Render(kv.1)
  }

  function MapParts(kvs: seq<(Value, Value)>): (r: seq<string>)
    decreases kvs
    ensures |r| == |kvs|
  {
    if kvs == [] then [] else MapParts(kvs[..|kvs| - 1]) + [EntryText(kvs[|kvs| - 1])]
  }

  /** Part i of a map is the text of entry i. */
  lemma {:induction false} MapPartAt(kvs: seq<(Value, Value)>, i: nat)
    requires i < |kvs|
    ensures MapParts(kvs)[i] == EntryText(kvs[i])
  {
    if i < |kvs| - 1 {
      MapPartAt(kvs[..|kvs| - 1], i);
    }
  }

  /** Extending the prefix by one element adds that element's part. */
  lemma MapPartsSnoc(kvs: seq<(Value, Value)>, i: nat)
    requires i < |kvs|
    ensures MapParts(kvs[..i + 1]) == MapParts(kvs[..i]) + [EntryText(kvs[i])]
  {
    assert kvs[..i + 1][..i] == kvs[..i];
  }

  /**
   * The intended renderer, computed as the header's overloads compute it:
   * one call per overload, with the tuple, map and container bodies
   * appending to an output buffer in a loop guarded by a `first` flag, and
   * every overload visible at every call (see `NameLookup.RenderAt` for the
   * three nestings where the header as written falls back to `<unprintable>`).
   */
  method ToString(v: Value) returns (s: string)
    decreases v, 1
    ensures s == Render(v)
  {
    match v {
      case VStr(str) => s := Quote(str);
      case VCStr(p) => s := if p.None? then "null" else Quote(p.value);
      case VBool(b) => s := if b then "true" else "false";
      case VInt(n) => s := DecimalText(n);
      case VChar(c) => s := [c];
      case VOpt(o) =>
        if o.None? {
          s := "nullopt";
        } else {
          var inner := ToString(o.value);
          s := "optional(" + inner + ")";
        }
      case VPair(a, b) =>
        var x := ToString(a);
        var y := ToString(b);
        s := "(" + x + Comma + y + ")";
      case VTuple(es) => s := TupleToString(es);
      case VSeq(es) => s := ListToString(es);
      case VMap(kvs) => s := MapToString(kvs);
      case VUnprintable => s := Sentinel;
    }
  }

  /** `detail::TupleToStringImpl`: the elements in positional order. */
  method TupleToString(es: seq<Value>) returns (s: string)
    decreases es
    ensures s == "(" + Join(TupleParts(es), Comma) + ")"
  {
    s := "(";
    var first := true;
    var i := 0;
    while i < |es|
      invariant 0 <= i <= |es|
      invariant first <==> i == 0
      invariant s == "(" + Join(TupleParts(es[..i]), Comma)
    {
      var t := ToString(es[i]);
      TuplePartsSnoc(es, i);
      JoinAppend("(", TupleParts(es[..i]), t, Comma, s);
      if first {
        first := false;
        s := s + t;
      } else {
        s := s + Comma + t;
      }
      i := i + 1;
    }
    assert es[..i] == es;
    s := s + ")";
  }

  /** The map-like branch of the generic `ToString`: entries in iteration order. */
  method MapToString(kvs: seq<(Value, Value)>) returns (s: string)
    decreases kvs
    ensures s == "{" + Join(MapParts(kvs), Comma) + "}"
  {
    s := "{";
    var first := true;
    var i := 0;
    while i < |kvs|
      invariant 0 <= i <= |kvs|
      invariant first <==> i == 0
      invariant s == "{" + Join(MapParts(kvs[..i]), Comma)
    {
      var entry := EntryToString(kvs[i]);
      MapPartsSnoc(kvs, i);
      JoinAppend("{", MapParts(kvs[..i]), entry, Comma, s);
      if !first {
        s := s + Comma;
      }
      first := false;
      s := s + entry;
      i := i + 1;
    }
    assert kvs[..i] == kvs;
    s := s + "}";
  }

  /** One entry of a map: the key and the mapped value, each rendered on its own. */
  method EntryToString(kv: (Value, Value)) returns (s: string)
    decreases kv
    ensures s == EntryText(kv)
  {
    var key := ToString(kv.0);
    var mapped := ToString(kv.1);
    s := key + ": " + mapped;
  }

  /** The iterable branch of the generic `ToString`: elements in iteration order. */
  method ListToString(es: seq<Value>) returns (s: string)
    decreases es
    ensures s == "[" + Join(ListParts(es), Comma) + "]"
  {
    s := "[";
    var first := true;
    var i := 0;
    while i < |es|
      invariant 0 <= i <= |es|
      invariant first <==> i == 0
      invariant s == "[" + Join(ListParts(es[..i]), Comma)
    {
      var t := ToStringElement(es[i]);
      ListPartsSnoc(es, i);
      JoinAppend("[", ListParts(es[..i]), t, Comma, s);
      if !first {
        s := s + Comma;
      }
      first := false;
      s := s + t;
      i := i + 1;
    }
    assert es[..i] == es;
    s := s + "]";
  }

  /** `detail::ToStringElement`: integral elements through `std::to_string`. */
  method ToStringElement(v: Value) returns (s: string)
    decreases v, 2
    ensures s == RenderElement(v)
  {
    if v.VInt? {
      s := DecimalText(v.n);
    } else if v.VChar? {
      s := DecimalText(v.c as int);
    } else {
      s := ToString(v);
    }
  }
}
