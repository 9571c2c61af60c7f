/**
  What the type matcher decides.  Two types match exactly when they look alike at every position:
  the same kind of type with the same names and number of parts, and, where a handle is passed,
  resources that are equal or bound to each other.
 */
module BridgeMatching {
  import opened Wrappers
  import opened ResourceTable
  import opened Bridge

  /** The component types of a type in order; a missing payload or item counts as a part. */
  function Parts(ty: Type): (parts: seq<Option<Type>>)
    ensures forall i | 0 <= i < |parts| && parts[i].Some? :: parts[i].value < ty
  {
    match ty
    case FutureT(item) => [item]
    case StreamT(item) => [item]
    case ListT(e) => [Some(e)]
    case RecordT(fs) => seq(|fs|, i requires 0 <= i < |fs| => Some(fs[i].ty))
    case TupleT(es) => seq(|es|, i requires 0 <= i < |es| => Some(es[i]))
    case VariantT(cs) => seq(|cs|, i requires 0 <= i < |cs| => cs[i].ty)
    case OptionT(e) => [Some(e)]
    case ResultT(ok, err) => [ok, err]
    case _ => []
  }

  const HOLE := PrimT(Bool)

  /** What a type is apart from its parts and its resource. */
  function Head(ty: Type): Type {
    match ty
    case FutureT(_) => FutureT(None)
    case StreamT(_) => StreamT(None)
    case ListT(_) => ListT(HOLE)
    case RecordT(fs) => RecordT(seq(|fs|, i requires 0 <= i < |fs| => FieldT(fs[i].name, HOLE)))
    case TupleT(es) => TupleT(seq(|es|, _ => HOLE))
    case VariantT(cs) => VariantT(seq(|cs|, i requires 0 <= i < |cs| => CaseT(cs[i].name, None)))
    case OptionT(_) => OptionT(HOLE)
    case ResultT(_, _) => ResultT(None, None)
    case OwnT(_) => OwnT(0)
    case BorrowT(_) => BorrowT(0)
    case _ => ty
  }

  /** The type at the end of a path of part numbers. */
  function Sub(ty: Type, path: seq<nat>): Option<Type>
    decreases |path|
  {
    if path == [] then Some(ty)
    else if path[0] < |Parts(ty)| && Parts(ty)[path[0]].Some? then Sub(Parts(ty)[path[0]].value, path[1..])
    else None
  }

  ghost predicate SameOrBound(a: ResourceType, b: ResourceType, bs: Option<seq<Binding>>) {
    a == b || (bs.Some? && exists id :: Binding(a, b, id) in bs.value)
  }

  ghost predicate Alike(a: Type, b: Type, bs: Option<seq<Binding>>) {
    Head(a) == Head(b) && ((a.OwnT? || a.BorrowT?) ==> SameOrBound(a.resource, b.resource, bs))
  }

  ghost predicate OptAlike(a: Option<Type>, b: Option<Type>, bs: Option<seq<Binding>>) {
    if a.Some? && b.Some? then Alike(a.value, b.value, bs) else a == b
  }

  /** The types look alike at every position. */
  ghost predicate AlikeThroughout(a: Type, b: Type, bs: Option<seq<Binding>>) {
    forall path: seq<nat> :: OptAlike(Sub(a, path), Sub(b, path), bs)
  }

  ghost predicate PartsMatch(a: Type, b: Type, bs: Option<seq<Binding>>) {
    |Parts(a)| == |Parts(b)| && forall i | 0 <= i < |Parts(a)| :: OptTypesMatch(Parts(a)[i], Parts(b)[i], bs)
  }

  lemma ResourcesMatchIff(a: ResourceType, b: ResourceType, bs: Option<seq<Binding>>)
    ensures ResourcesMatch(a, b, bs) <==> SameOrBound(a, b, bs)
  {
    if bs.Some? && exists id :: Binding(a, b, id) in bs.value {
      var id :| Binding(a, b, id) in bs.value;
      var k :| 0 <= k < |bs.value| && bs.value[k] == Binding(a, b, id);
      assert bs.value[k].importRes == a && bs.value[k].calleeRes == b;
    }
    if bs.Some? && exists k | 0 <= k < |bs.value| :: bs.value[k].importRes == a && bs.value[k].calleeRes == b {
      var k :| 0 <= k < |bs.value| && bs.value[k].importRes == a && bs.value[k].calleeRes == b;
      assert Binding(a, b, bs.value[k].typeId) in bs.value;
    }
  }

  /** One level of the matcher. */
  lemma MatchUnfolds(a: Type, b: Type, bs: Option<seq<Binding>>)
    ensures TypesMatch(a, b, bs) <==> Alike(a, b, bs) && PartsMatch(a, b, bs)
  {
    if a.RecordT? && b.RecordT? {
      RecordUnfolds(a, b, bs);
    } else if a.TupleT? && b.TupleT? {
      TupleUnfolds(a, b, bs);
    } else if a.VariantT? && b.VariantT? {
      VariantUnfolds(a, b, bs);
    } else if a.FutureT? || a.StreamT? || a.ListT? || a.OptionT? || a.ResultT? {
      WrapperUnfolds(a, b, bs);
    } else if (a.OwnT? && b.OwnT?) || (a.BorrowT? && b.BorrowT?) {
      ResourcesMatchIff(a.resource, b.resource, bs);
    } else {
      assert Head(a) == Head(b) ==> a == b;
    }
  }

  lemma WrapperUnfolds(a: Type, b: Type, bs: Option<seq<Binding>>)
    requires a.FutureT? || a.StreamT? || a.ListT? || a.OptionT? || a.ResultT?
    ensures TypesMatch(a, b, bs) <==> Alike(a, b, bs) && PartsMatch(a, b, bs)
  {
    if Head(a) == Head(b) {
      assert OptTypesMatch(Parts(a)[0], Parts(b)[0], bs) <==>
        if a.ListT? then TypesMatch(a.elem, b.elem, bs)
        else if a.OptionT? then TypesMatch(a.some, b.some, bs)
        else if a.ResultT? then OptTypesMatch(a.ok, b.ok, bs)
        else OptTypesMatch(a.item, b.item, bs);
      assert a.ResultT? ==> Parts(a)[1] == a.err && Parts(b)[1] == b.err;
    }
  }

  lemma RecordUnfolds(a: Type, b: Type, bs: Option<seq<Binding>>)
    requires a.RecordT? && b.RecordT?
    ensures TypesMatch(a, b, bs) <==> Alike(a, b, bs) && PartsMatch(a, b, bs)
  {
    var fs, gs := a.fields, b.fields;
    if |fs| == |gs| {
      assert forall i | 0 <= i < |fs| :: Head(a).fields[i].name == fs[i].name && Head(b).fields[i].name == gs[i].name;
      assert forall i | 0 <= i < |fs| :: Parts(a)[i] == Some(fs[i].ty) && Parts(b)[i] == Some(gs[i].ty);
      if forall i | 0 <= i < |fs| :: fs[i].name == gs[i].name {
        assert Head(a).fields == Head(b).fields;
      }
    } else {
      assert |Head(a).fields| == |fs| && |Head(b).fields| == |gs|;
    }
  }

  lemma TupleUnfolds(a: Type, b: Type, bs: Option<seq<Binding>>)
    requires a.TupleT? && b.TupleT?
    ensures TypesMatch(a, b, bs) <==> Alike(a, b, bs) && PartsMatch(a, b, bs)
  {
    if |a.elems| == |b.elems| {
      assert forall i | 0 <= i < |a.elems| :: Parts(a)[i] == Some(a.elems[i]) && Parts(b)[i] == Some(b.elems[i]);
      assert Head(a).elems == Head(b).elems;
    } else {
      assert |Head(a).elems| == |a.elems| && |Head(b).elems| == |b.elems|;
    }
  }

  lemma VariantUnfolds(a: Type, b: Type, bs: Option<seq<Binding>>)
    requires a.VariantT? && b.VariantT?
    ensures TypesMatch(a, b, bs) <==> Alike(a, b, bs) && PartsMatch(a, b, bs)
  {
    var cs, ds := a.cases, b.cases;
    if |cs| == |ds| {
      assert forall i | 0 <= i < |cs| :: Head(a).cases[i].name == cs[i].name && Head(b).cases[i].name == ds[i].name;
      assert forall i | 0 <= i < |cs| :: Parts(a)[i] == cs[i].ty && Parts(b)[i] == ds[i].ty;
      if forall i | 0 <= i < |cs| :: cs[i].name == ds[i].name {
        assert Head(a).cases == Head(b).cases;
      }
    } else {
      assert |Head(a).cases| == |cs| && |Head(b).cases| == |ds|;
    }
  }

  lemma {:induction false} MatchedEverywhere(a: Type, b: Type, bs: Option<seq<Binding>>, path: seq<nat>)
    requires TypesMatch(a, b, bs)
    ensures OptAlike(Sub(a, path), Sub(b, path), bs)
    decreases |path|
  {
    MatchUnfolds(a, b, bs);
    if path != [] && path[0] < |Parts(a)| && Parts(a)[path[0]].Some? {
      assert OptTypesMatch(Parts(a)[path[0]], Parts(b)[path[0]], bs);
      MatchedEverywhere(Parts(a)[path[0]].value, Parts(b)[path[0]].value, bs, path[1..]);
    } else if path != [] && path[0] < |Parts(a)| {
      assert OptTypesMatch(Parts(a)[path[0]], Parts(b)[path[0]], bs);
    }
  }

  lemma {:induction false} AlikeMatches(a: Type, b: Type, bs: Option<seq<Binding>>)
    requires AlikeThroughout(a, b, bs)
    ensures TypesMatch(a, b, bs)
    decreases a
  {
    assert OptAlike(Sub(a, []), Sub(b, []), bs);
    SameParts(a, b);
    forall i: nat | i < |Parts(a)| ensures OptTypesMatch(Parts(a)[i], Parts(b)[i], bs) {
      PartAt(a, i);
      PartAt(b, i);
      assert OptAlike(Sub(a, [i]), Sub(b, [i]), bs);
      if Parts(a)[i].Some? {
        var x, y := Parts(a)[i].value, Parts(b)[i].value;
        forall path: seq<nat> ensures OptAlike(Sub(x, path), Sub(y, path), bs) {
          assert ([i] + path)[1..] == path;
          assert OptAlike(Sub(a, [i] + path), Sub(b, [i] + path), bs);
        }
        AlikeMatches(x, y, bs);
      }
    }
    MatchUnfolds(a, b, bs);
  }

  lemma SameParts(a: Type, b: Type)
    requires Head(a) == Head(b)
    ensures |Parts(a)| == |Parts(b)|
  {
    match a
    case RecordT(fs) => assert |Head(a).fields| == |fs| && |Head(b).fields| == |b.fields|;
    case TupleT(es) => assert |Head(a).elems| == |es| && |Head(b).elems| == |b.elems|;
    case VariantT(cs) => assert |Head(a).cases| == |cs| && |Head(b).cases| == |b.cases|;
    case _ =>
  }

  lemma PartAt(ty: Type, i: nat)
    requires i < |Parts(ty)|
    ensures Sub(ty, [i]) == Parts(ty)[i]
  {
    assert [i][1..] == [];
  }

  /** The matcher accepts exactly the pairs of types that look alike at every position. */
  lemma MatchesIff(a: Type, b: Type, bs: Option<seq<Binding>>)
    ensures TypesMatch(a, b, bs) <==> AlikeThroughout(a, b, bs)
  {
    if TypesMatch(a, b, bs) {
      forall path: seq<nat> ensures OptAlike(Sub(a, path), Sub(b, path), bs) {
        MatchedEverywhere(a, b, bs, path);
      }
    }
    if AlikeThroughout(a, b, bs) {
      AlikeMatches(a, b, bs);
    }
  }

  /** In particular a bound pair is accepted as it is passed to methods, borrowed, and as it is handed over, owned. */
  lemma BoundHandlesMatch(b: Binding, bs: seq<Binding>)
    requires b in bs
    ensures TypesMatch(OwnT(b.importRes), OwnT(b.calleeRes), Some(bs))
    ensures TypesMatch(BorrowT(b.importRes), BorrowT(b.calleeRes), Some(bs))
  {
    assert SameOrBound(b.importRes, b.calleeRes, Some(bs)) by {
      assert Binding(b.importRes, b.calleeRes, b.typeId) in bs;
    }
    MatchUnfolds(OwnT(b.importRes), OwnT(b.calleeRes), Some(bs));
    MatchUnfolds(BorrowT(b.importRes), BorrowT(b.calleeRes), Some(bs));
  }
}
