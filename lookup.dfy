/**
 * The renderer as the header is written, taking C++ name lookup into account.
 *
 * The calls `ToString(*opt)` in the optional overload, `ToString(p.first)`
 * and `ToString(p.second)` in the pair overload, and `ToString(std::get<Is>(t))`
 * in `detail::TupleToStringImpl` are unqualified calls with a dependent
 * argument. Ordinary lookup for them sees only the overloads declared above
 * the template that makes the call, and argument-dependent lookup for a
 * `std::pair` or `std::tuple` of standard and built-in types searches only
 * namespace `std`. So the optional overload cannot see the pair and tuple
 * overloads, and neither the pair overload nor the tuple helper can see the
 * tuple overload; such a call falls to the generic template, whose last
 * branch answers `<unprintable>` for a pair or a tuple. Every other call site
 * (the generic template's map branch, `detail::ToStringElement`'s qualified
 * `::ToString`, the test runners) comes after all overloads and sees them all.
 */
module NameLookup {
  import opened Wrappers
  import opened Decimal
  import opened Joining
  import opened Renderer

  /** The body a call to `ToString` is written in. */
  datatype Site = AfterAllOverloads | OptionalBody | PairBody | TupleBody

  /** Whether the overload for the shape of `v` is declared above `site`. */
  predicate OverloadVisible(v: Value, site: Site)
  {
    match v
    case VPair(_, _) => site != OptionalBody
    case VTuple(_) => site == AfterAllOverloads
    case _ => true
  }

  /** The text the header produces for `v` rendered from a call written at `site`. */
  function RenderAt(v: Value, site: Site): string
    decreases v, 1
  {
    if !OverloadVisible(v, site) then Sentinel
    else match v
      case VOpt(o) => if o.None? then "nullopt" else "optional(" + RenderAt(o.value, OptionalBody) + ")"
      case VPair(a, b) => "(" + RenderAt(a, PairBody) + Comma + RenderAt(b, PairBody) + ")"
      case VTuple(es) => "(" + Join(TuplePartsAt(es), Comma) + ")"
      case VSeq(es) => "[" + Join(ListPartsAt(es), Comma) + "]"
      case VMap(kvs) => "{" + Join(MapPartsAt(kvs), Comma) + "}"
      case _ => Render(v)
  }

  function ElementAt(v: Value): string
    decreases v, 2
  {
    match v
    case VInt(n) => DecimalText(n)
    case VChar(c) => DecimalText(c as int)
    case _ => RenderAt(v, AfterAllOverloads)
  }

  function TuplePartsAt(es: seq<Value>): (r: seq<string>)
    decreases es
    ensures |r| == |es|
    ensures forall i :: 0 <= i < |es| ==> r[i] == RenderAt(es[i], TupleBody)
  {
    if es == [] then [] else TuplePartsAt(es[..|es| - 1]) + [RenderAt(es[|es| - 1], TupleBody)]
  }

  function ListPartsAt(es: seq<Value>): (r: seq<string>)
    decreases es
    ensures |r| == |es|
    ensures forall i :: 0 <= i < |es| ==> r[i] == ElementAt(es[i])
  {
    if es == [] then [] else ListPartsAt(es[..|es| - 1]) + [ElementAt(es[|es| - 1])]
  }

  function EntryAt(kv: (Value, Value)): string
    decreases kv
  {
    RenderAt(kv.0, AfterAllOverloads) + ": " + RenderAt(kv.1, AfterAllOverloads)
  }

  function MapPartsAt(kvs: seq<(Value, Value)>): (r: seq<string>)
    decreases kvs
    ensures |r| == |kvs|
    ensures forall i :: 0 <= i < |kvs| ==> r[i] == EntryAt(kvs[i])
  {
    if kvs == [] then [] else MapPartsAt(kvs[..|kvs| - 1]) + [EntryAt(kvs[|kvs| - 1])]
  }

  /**
   * A value in which no optional directly holds a pair or a tuple and no
   * pair or tuple directly holds a tuple, at any depth.
   */
  predicate LookupSafe(v: Value, site: Site)
    decreases v
  {
    OverloadVisible(v, site) &&
    match v
    case VOpt(o) => o.Some? ==> LookupSafe(o.value, OptionalBody)
    case VPair(a, b) => LookupSafe(a, PairBody) && LookupSafe(b, PairBody)
    case VTuple(es) => forall i :: 0 <= i < |es| ==> LookupSafe(es[i], TupleBody)
    case VSeq(es) => forall i :: 0 <= i < |es| ==> LookupSafe(es[i], AfterAllOverloads)
    case VMap(kvs) => forall i :: 0 <= i < |kvs| ==>
      LookupSafe(kvs[i].0, AfterAllOverloads) && LookupSafe(kvs[i].1, AfterAllOverloads)
    case _ => true
  }

  /** On values that avoid the hidden overloads, the header renders as intended. */
  lemma {:induction false} AsWrittenAgreesWhenSafe(v: Value, site: Site)
    requires LookupSafe(v, site)
    ensures RenderAt(v, site) == Render(v)
    decreases v, 0
  {
    match v
    case VOpt(o) =>
      if o.Some? {
        AsWrittenAgreesWhenSafe(o.value, OptionalBody);
      }
    case VPair(a, b) =>
      AsWrittenAgreesWhenSafe(a, PairBody);
      AsWrittenAgreesWhenSafe(b, PairBody);
    case VTuple(es) =>
      TuplePartsAgree(es);
    case VSeq(es) =>
      ListPartsAgree(es);
    case VMap(kvs) =>
      MapPartsAgree(kvs);
    case _ =>
  }

  lemma {:induction false} TuplePartsAgree(es: seq<Value>)
    requires forall i :: 0 <= i < |es| ==> LookupSafe(es[i], TupleBody)
    ensures TuplePartsAt(es) == TupleParts(es)
    decreases es
  {
    forall i | 0 <= i < |es|
      ensures TuplePartsAt(es)[i] == TupleParts(es)[i]
    {
      AsWrittenAgreesWhenSafe(es[i], TupleBody);
      TuplePartAt(es, i);
    }
  }

  lemma {:induction false} ListPartsAgree(es: seq<Value>)
    requires forall i :: 0 <= i < |es| ==> LookupSafe(es[i], AfterAllOverloads)
    ensures ListPartsAt(es) == ListParts(es)
    decreases es
  {
    forall i | 0 <= i < |es|
      ensures ListPartsAt(es)[i] == ListParts(es)[i]
    {
      AsWrittenAgreesWhenSafe(es[i], AfterAllOverloads);
      ListPartAt(es, i);
    }
  }

  lemma {:induction false} MapPartsAgree(kvs: seq<(Value, Value)>)
    requires forall i :: 0 <= i < |kvs| ==>
      LookupSafe(kvs[i].0, AfterAllOverloads) && LookupSafe(kvs[i].1, AfterAllOverloads)
    ensures MapPartsAt(kvs) == MapParts(kvs)
    decreases kvs
  {
    forall i | 0 <= i < |kvs|
      ensures MapPartsAt(kvs)[i] == MapParts(kvs)[i]
    {
      EntryAgrees(kvs[i]);
      MapPartAt(kvs, i);
    }
  }

  lemma {:induction false} EntryAgrees(kv: (Value, Value))
    requires LookupSafe(kv.0, AfterAllOverloads) && LookupSafe(kv.1, AfterAllOverloads)
    ensures EntryAt(kv) == EntryText(kv)
    decreases kv
  {
    AsWrittenAgreesWhenSafe(kv.0, AfterAllOverloads);
    AsWrittenAgreesWhenSafe(kv.1, AfterAllOverloads);
  }

  /** `std::optional<std::pair<int, int>>{{1, 2}}`: the header prints `optional(<unprintable>)`. */
  lemma OptionalOfPairAsWritten()
    ensures RenderAt(VOpt(Some(VPair(VInt(1), VInt(2)))), AfterAllOverloads) == "optional(<unprintable>)"
    ensures Render(VOpt(Some(VPair(VInt(1), VInt(2))))) == "optional((1, 2))"
  {
    assert DecimalText(1) == "1" && DecimalText(2) == "2";
  }

  /** `std::pair<int, std::tuple<int>>{1, {2}}`: the header prints `(1, <unprintable>)`. */
  lemma PairOfTupleAsWritten()
    ensures RenderAt(VPair(VInt(1), VTuple([VInt(2)])), AfterAllOverloads) == "(1, <unprintable>)"
    ensures Render(VPair(VInt(1), VTuple([VInt(2)]))) == "(1, (2))"
  {
    assert DecimalText(1) == "1" && DecimalText(2) == "2";
    assert TupleParts([VInt(2)]) == ["2"];
  }

  /** `std::tuple<std::tuple<>>{}`: the header prints `(<unprintable>)`. */
  lemma TupleOfTupleAsWritten()
    ensures RenderAt(VTuple([VTuple([])]), AfterAllOverloads) == "(<unprintable>)"
    ensures Render(VTuple([VTuple([])])) == "(())"
  {
    assert TupleParts([]) == [];
    assert Render(VTuple([])) == "()";
    assert TupleParts([VTuple([])]) == ["()"];
    assert Join(["()"], Comma) == "()";
    assert RenderAt(VTuple([]), TupleBody) == Sentinel;
    assert TuplePartsAt([VTuple([])]) == [Sentinel];
    assert Join([Sentinel], Comma) == Sentinel;
  }
}
