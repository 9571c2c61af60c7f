/**
  Type soundness of the bridge.  A signature accepted by the type matcher is exactly what makes
  the stateful translation total on linear arguments, makes it agree with a stateless
  substitution of resources for handles, and makes its output well typed on the other side.
 */
module BridgeTyping {
  import opened Wrappers
  import opened ResourceTable
  import opened Bridge
  import opened BridgeRoundTrip

  // ---- Typing of values on either side of the bridge ----

  /** The callee sees its own guest resources; the importer sees host handles into the table. */
  datatype Side =
    | CalleeSide
    | ImportSide(entries: map<nat, Stored>, bindings: seq<Binding>)

  predicate HandleTyped(side: Side, r: ResourceAny, ty: ResourceType) {
    match side
    case CalleeSide => r.Guest? && r.ty == ty
    case ImportSide(m, bs) =>
      var b := FindBinding(bs, ty);
      && b.Some? && r.Host? && r.typeId == b.value.typeId
      && r.rep in m && m[r.rep].typeId == r.typeId
      && m[r.rep].resource.Guest? && m[r.rep].resource.ty == b.value.calleeRes
  }

  predicate HasType(side: Side, v: Val, ty: Type)
    decreases v
  {
    match ty
    case PrimT(p) => v.PrimV? && v.prim == p
    case EnumT(names) => v.EnumV? && v.name in names
    case FlagsT(names) => v.FlagsV? && forall f | f in v.flags :: f in names
    case FutureT(item) => v.FutureV? && v.item == item
    case StreamT(item) => v.StreamV? && v.item == item
    case ListT(e) => v.ListV? && forall i | 0 <= i < |v.elems| :: HasType(side, v.elems[i], e)
    case RecordT(fts) =>
      && v.RecordV? && |v.fields| == |fts|
      && forall i | 0 <= i < |fts| :: v.fields[i].name == fts[i].name && HasType(side, v.fields[i].val, fts[i].ty)
    case TupleT(tys) =>
      v.TupleV? && |v.elems| == |tys| && forall i | 0 <= i < |tys| :: HasType(side, v.elems[i], tys[i])
    case VariantT(cs) =>
      v.VariantV? && FindCase(cs, v.name).Some? && OptHasType(side, v.payload, FindCase(cs, v.name).value.ty)
    case OptionT(e) => v.OptionV? && (v.payload.Some? ==> HasType(side, v.payload.value, e))
    case ResultT(ok, err) => v.ResultV? && OptHasType(side, v.payload, if v.isOk then ok else err)
    case OwnT(r) => v.ResourceV? && HandleTyped(side, v.resource, r)
    case BorrowT(r) => v.ResourceV? && HandleTyped(side, v.resource, r)
  }

  predicate OptHasType(side: Side, v: Option<Val>, ty: Option<Type>)
    decreases v
  {
    match v
    case None => ty == None
    case Some(x) => ty.Some? && HasType(side, x, ty.value)
  }

  predicate AllTyped(side: Side, vs: seq<Val>, tys: seq<Type>)
    requires |vs| == |tys|
  {
    forall i | 0 <= i < |vs| :: HasType(side, vs[i], tys[i])
  }

  predicate FieldsTyped(side: Side, fs: seq<FieldV>, fts: seq<FieldT>)
    requires |fs| == |fts|
  {
    forall i | 0 <= i < |fs| :: HasType(side, fs[i].val, fts[i].ty)
  }

  lemma AllTypedCons(side: Side, vs: seq<Val>, tys: seq<Type>)
    requires |vs| == |tys| > 0
    ensures AllTyped(side, vs, tys) <==> HasType(side, vs[0], tys[0]) && AllTyped(side, vs[1..], tys[1..])
  {
    forall i | 0 < i < |vs|
      ensures HasType(side, vs[i], tys[i]) <==> HasType(side, vs[1..][i - 1], tys[1..][i - 1])
    {}
    assert forall i | 0 <= i < |vs[1..]| :: vs[1..][i] == vs[i + 1] && tys[1..][i] == tys[i + 1];
  }

  lemma FieldsTypedCons(side: Side, fs: seq<FieldV>, fts: seq<FieldT>)
    requires |fs| == |fts| > 0
    ensures FieldsTyped(side, fs, fts) <==>
              HasType(side, fs[0].val, fts[0].ty) && FieldsTyped(side, fs[1..], fts[1..])
  {
    forall i | 0 < i < |fs|
      ensures HasType(side, fs[i].val, fts[i].ty) <==> HasType(side, fs[1..][i - 1].val, fts[1..][i - 1].ty)
    {}
    assert forall i | 0 <= i < |fs[1..]| :: fs[1..][i] == fs[i + 1] && fts[1..][i] == fts[i + 1];
  }

  // ---- When a value crosses with its type ----

  /** The binding the bridge uses for import resource `r` leads to callee resource `c`. */
  predicate Exchanges(bs: seq<Binding>, r: ResourceType, c: ResourceType) {
    FindBinding(bs, r).Some? && FindBinding(bs, r).value.calleeRes == c
  }

  /**
    At every handle the value holds, the binding used leads to the resource the callee declares
    there, and at every future or stream both sides declare the same item.
   */
  predicate Agrees(v: Val, it: Type, ct: Type, bs: seq<Binding>)
    decreases v
  {
    match it
    case FutureT(_) => ct == it
    case StreamT(_) => ct == it
    case ListT(e) =>
      v.ListV? && ct.ListT? ==> forall i | 0 <= i < |v.elems| :: Agrees(v.elems[i], e, ct.elem, bs)
    case TupleT(tys) =>
      v.TupleV? && ct.TupleT? && |v.elems| == |tys| == |ct.elems| ==>
        forall i | 0 <= i < |tys| :: Agrees(v.elems[i], tys[i], ct.elems[i], bs)
    case RecordT(fts) =>
      v.RecordV? && ct.RecordT? && |v.fields| == |fts| == |ct.fields| ==>
        forall i | 0 <= i < |fts| :: Agrees(v.fields[i].val, fts[i].ty, ct.fields[i].ty, bs)
    case VariantT(cs) =>
      v.VariantV? && ct.VariantT? && FindCase(cs, v.name).Some? && FindCase(ct.cases, v.name).Some? ==>
        OptAgrees(v.payload, FindCase(cs, v.name).value.ty, FindCase(ct.cases, v.name).value.ty, bs)
    case OptionT(e) => v.OptionV? && ct.OptionT? ==> OptAgrees(v.payload, Some(e), Some(ct.some), bs)
    case ResultT(ok, err) =>
      v.ResultV? && ct.ResultT? ==>
        OptAgrees(v.payload, if v.isOk then ok else err, if v.isOk then ct.ok else ct.err, bs)
    case OwnT(r) => ct.OwnT? && Exchanges(bs, r, ct.resource)
    case BorrowT(r) => ct.BorrowT? && Exchanges(bs, r, ct.resource)
    case _ => true
  }

  predicate OptAgrees(v: Option<Val>, it: Option<Type>, ct: Option<Type>, bs: seq<Binding>)
    decreases v
  {
    v.Some? && it.Some? && ct.Some? ==> Agrees(v.value, it.value, ct.value, bs)
  }

  predicate AllAgree(vs: seq<Val>, its: seq<Type>, cts: seq<Type>, bs: seq<Binding>)
    requires |vs| == |its| == |cts|
  {
    forall i | 0 <= i < |vs| :: Agrees(vs[i], its[i], cts[i], bs)
  }

  predicate FieldsAgree(fs: seq<FieldV>, its: seq<FieldT>, cts: seq<FieldT>, bs: seq<Binding>)
    requires |fs| == |its| == |cts|
  {
    forall i | 0 <= i < |fs| :: Agrees(fs[i].val, its[i].ty, cts[i].ty, bs)
  }

  lemma AllAgreeCons(vs: seq<Val>, its: seq<Type>, cts: seq<Type>, bs: seq<Binding>)
    requires |vs| == |its| == |cts| > 0
    ensures AllAgree(vs, its, cts, bs) <==>
              Agrees(vs[0], its[0], cts[0], bs) && AllAgree(vs[1..], its[1..], cts[1..], bs)
  {
    forall i | 0 < i < |vs|
      ensures Agrees(vs[i], its[i], cts[i], bs) <==> Agrees(vs[1..][i - 1], its[1..][i - 1], cts[1..][i - 1], bs)
    {}
    assert forall i | 0 <= i < |vs[1..]| ::
      vs[1..][i] == vs[i + 1] && its[1..][i] == its[i + 1] && cts[1..][i] == cts[i + 1];
  }

  lemma FieldsAgreeCons(fs: seq<FieldV>, its: seq<FieldT>, cts: seq<FieldT>, bs: seq<Binding>)
    requires |fs| == |its| == |cts| > 0
    ensures FieldsAgree(fs, its, cts, bs) <==>
              Agrees(fs[0].val, its[0].ty, cts[0].ty, bs) && FieldsAgree(fs[1..], its[1..], cts[1..], bs)
  {
    forall i | 0 < i < |fs|
      ensures Agrees(fs[i].val, its[i].ty, cts[i].ty, bs)
         <==> Agrees(fs[1..][i - 1].val, its[1..][i - 1].ty, cts[1..][i - 1].ty, bs)
    {}
    assert forall i | 0 <= i < |fs[1..]| ::
      fs[1..][i] == fs[i + 1] && its[1..][i] == its[i + 1] && cts[1..][i] == cts[i + 1];
  }

  // ---- Conditions on signatures ----

  /** Every resource type occurring in `ty` belongs to `s`. */
  ghost predicate ResourcesIn(ty: Type, s: iset<ResourceType>) {
    match ty
    case FutureT(item) => OptResourcesIn(item, s)
    case StreamT(item) => OptResourcesIn(item, s)
    case ListT(e) => ResourcesIn(e, s)
    case RecordT(fts) => forall i | 0 <= i < |fts| :: ResourcesIn(fts[i].ty, s)
    case TupleT(tys) => forall i | 0 <= i < |tys| :: ResourcesIn(tys[i], s)
    case VariantT(cs) => forall i | 0 <= i < |cs| :: OptResourcesIn(cs[i].ty, s)
    case OptionT(e) => ResourcesIn(e, s)
    case ResultT(ok, err) => OptResourcesIn(ok, s) && OptResourcesIn(err, s)
    case OwnT(r) => r in s
    case BorrowT(r) => r in s
    case _ => true
  }

  ghost predicate OptResourcesIn(ty: Option<Type>, s: iset<ResourceType>) {
    ty.Some? ==> ResourcesIn(ty.value, s)
  }

  /** Futures and streams cross unchanged, so their items must not mention resources. */
  ghost predicate PlainAsync(ty: Type) {
    match ty
    case FutureT(item) => OptResourcesIn(item, iset{})
    case StreamT(item) => OptResourcesIn(item, iset{})
    case ListT(e) => PlainAsync(e)
    case RecordT(fts) => forall i | 0 <= i < |fts| :: PlainAsync(fts[i].ty)
    case TupleT(tys) => forall i | 0 <= i < |tys| :: PlainAsync(tys[i])
    case VariantT(cs) => forall i | 0 <= i < |cs| :: OptPlainAsync(cs[i].ty)
    case OptionT(e) => PlainAsync(e)
    case ResultT(ok, err) => OptPlainAsync(ok) && OptPlainAsync(err)
    case _ => true
  }

  ghost predicate OptPlainAsync(ty: Option<Type>) {
    ty.Some? ==> PlainAsync(ty.value)
  }

  predicate Imports(bs: seq<Binding>, r: ResourceType) {
    exists k | 0 <= k < |bs| :: bs[k].importRes == r
  }

  predicate ImportsOnce(bs: seq<Binding>, r: ResourceType) {
    && Imports(bs, r)
    && forall k, l | 0 <= k < |bs| && 0 <= l < |bs| && bs[k].importRes == r && bs[l].importRes == r :: k == l
  }

  ghost function BoundOnce(bs: seq<Binding>): iset<ResourceType> {
    iset r | ImportsOnce(bs, r)
  }

  ghost function NotImported(bs: seq<Binding>): iset<ResourceType> {
    iset r | !Imports(bs, r)
  }

  /** Import type `it` and callee type `ct` form a signature the bridge is meant for. */
  ghost predicate Bridgeable(it: Type, ct: Type, bs: seq<Binding>) {
    && TypesMatch(it, ct, Some(bs))
    && ResourcesIn(it, BoundOnce(bs))
    && ResourcesIn(ct, NotImported(bs))
    && PlainAsync(it)
  }

  lemma {:induction false} FindBindingFirst(bs: seq<Binding>, r: ResourceType, k: nat)
    requires k < |bs| && bs[k].importRes == r
    requires forall l | 0 <= l < |bs| && bs[l].importRes == r :: l == k
    ensures FindBinding(bs, r) == Some(bs[k])
  {
    if k > 0 {
      assert bs[0].importRes != r;
      assert bs[1..][k - 1] == bs[k];
      forall l | 0 <= l < |bs[1..]| && bs[1..][l].importRes == r ensures l == k - 1 {
        assert bs[l + 1].importRes == r;
      }
      FindBindingFirst(bs[1..], r, k - 1);
    }
  }

  /** For a bridgeable leaf the binding found is the one the matcher accepted. */
  lemma LeafBinding(r: ResourceType, c: ResourceType, bs: seq<Binding>)
    requires ResourcesMatch(r, c, Some(bs)) && r in BoundOnce(bs) && c in NotImported(bs)
    ensures FindBinding(bs, r).Some? && FindBinding(bs, r).value.calleeRes == c
  {
    var k :| 0 <= k < |bs| && bs[k].importRes == r;
    assert r != c;
    FindBindingFirst(bs, r, k);
  }

  /** The case chosen by name sits at one index of both matching case lists. */
  lemma {:induction false} FindCaseIndex(cs: seq<CaseT>, ds: seq<CaseT>, name: string) returns (i: nat)
    requires |cs| == |ds| && forall i | 0 <= i < |cs| :: cs[i].name == ds[i].name
    ensures FindCase(cs, name).Some? <==> FindCase(ds, name).Some?
    ensures FindCase(cs, name).Some? ==>
              i < |cs| && FindCase(cs, name).value == cs[i] && FindCase(ds, name).value == ds[i]
  {
    i := 0;
    if cs != [] && cs[0].name != name {
      var j := FindCaseIndex(cs[1..], ds[1..], name);
      i := j + 1;
    }
  }

  /** Matching types without resources are equal. */
  lemma {:induction false} PlainMatchEqual(a: Type, b: Type, bs: Option<seq<Binding>>)
    requires TypesMatch(a, b, bs) && ResourcesIn(a, iset{})
    ensures a == b
    decreases a
  {
    match a
    case ListT(e) => PlainMatchEqual(e, b.elem, bs);
    case OptionT(e) => PlainMatchEqual(e, b.some, bs);
    case FutureT(item) => OptPlainMatchEqual(item, b.item, bs);
    case StreamT(item) => OptPlainMatchEqual(item, b.item, bs);
    case ResultT(ok, err) =>
      OptPlainMatchEqual(ok, b.ok, bs);
      OptPlainMatchEqual(err, b.err, bs);
    case TupleT(es) =>
      forall i | 0 <= i < |es| ensures es[i] == b.elems[i] { PlainMatchEqual(es[i], b.elems[i], bs); }
      assert es == b.elems;
    case RecordT(fs) =>
      forall i | 0 <= i < |fs| ensures fs[i] == b.fields[i] { PlainMatchEqual(fs[i].ty, b.fields[i].ty, bs); }
      assert fs == b.fields;
    case VariantT(cs) =>
      forall i | 0 <= i < |cs| ensures cs[i] == b.cases[i] { OptPlainMatchEqual(cs[i].ty, b.cases[i].ty, bs); }
      assert cs == b.cases;
    case _ =>
  }

  lemma {:induction false} OptPlainMatchEqual(a: Option<Type>, b: Option<Type>, bs: Option<seq<Binding>>)
    requires OptTypesMatch(a, b, bs) && OptResourcesIn(a, iset{})
    ensures a == b
    decreases a
  {
    if a.Some? {
      PlainMatchEqual(a.value, b.value, bs);
    }
  }

  // ---- Handles of a value, in the order the bridge meets them ----

  /** A handle, whether it is passed as owned, and the resource type of its position. */
  datatype Handle = Handle(res: ResourceAny, owned: bool, ty: ResourceType)

  function Handles(v: Val, ty: Type): seq<Handle>
    decreases v
  {
    match ty
    case ListT(e) => if v.ListV? then HandlesOf(v.elems, Repeat(e, |v.elems|)) else []
    case TupleT(tys) => if v.TupleV? && |v.elems| == |tys| then HandlesOf(v.elems, tys) else []
    case RecordT(fts) => if v.RecordV? && |v.fields| == |fts| then FieldHandles(v.fields, fts) else []
    case VariantT(cs) =>
      if v.VariantV? && FindCase(cs, v.name).Some? then OptHandles(v.payload, FindCase(cs, v.name).value.ty) else []
    case OptionT(e) => if v.OptionV? then OptHandles(v.payload, Some(e)) else []
    case ResultT(ok, err) => if v.ResultV? then OptHandles(v.payload, if v.isOk then ok else err) else []
    case OwnT(r) => if v.ResourceV? then [Handle(v.resource, true, r)] else []
    case BorrowT(r) => if v.ResourceV? then [Handle(v.resource, false, r)] else []
    case _ => []
  }

  function OptHandles(v: Option<Val>, ty: Option<Type>): seq<Handle>
    decreases v
  {
    if v.Some? && ty.Some? then Handles(v.value, ty.value) else []
  }

  function HandlesOf(vs: seq<Val>, tys: seq<Type>): seq<Handle>
    requires |vs| == |tys|
    decreases vs
  {
    if vs == [] then [] else Handles(vs[0], tys[0]) + HandlesOf(vs[1..], tys[1..])
  }

  function FieldHandles(fs: seq<FieldV>, fts: seq<FieldT>): seq<Handle>
    requires |fs| == |fts|
    decreases fs
  {
    if fs == [] then [] else Handles(fs[0].val, fts[0].ty) + FieldHandles(fs[1..], fts[1..])
  }

  /** Every handle points at `keys` when its turn comes, owned ones being consumed on the way. */
  predicate Usable(hs: seq<Handle>, keys: set<nat>) {
    hs == [] ||
    (&& hs[0].res.Host? && hs[0].res.rep in keys
     && Usable(hs[1..], if hs[0].owned then keys - {hs[0].res.rep} else keys))
  }

  function OwnedReps(hs: seq<Handle>): set<nat> {
    set h | h in hs && h.owned && h.res.Host? :: h.res.rep
  }

  /** No handle is used after an owned handle with the same rep was passed. */
  predicate NoUseAfterMove(hs: seq<Handle>) {
    forall i, j | 0 <= i < j < |hs| && hs[i].owned && hs[i].res.Host? && hs[j].res.Host? ::
      hs[i].res.rep != hs[j].res.rep
  }

  predicate AllIn(hs: seq<Handle>, keys: set<nat>) {
    forall h | h in hs :: h.res.Host? && h.res.rep in keys
  }

  lemma {:induction false} UsableConcat(a: seq<Handle>, b: seq<Handle>, keys: set<nat>)
    ensures Usable(a + b, keys) <==> Usable(a, keys) && Usable(b, keys - OwnedReps(a))
    ensures OwnedReps(a + b) == OwnedReps(a) + OwnedReps(b)
  {
    if a == [] {
      assert a + b == b;
      assert keys - OwnedReps(a) == keys;
    } else {
      var keys' := if a[0].owned && a[0].res.Host? then keys - {a[0].res.rep} else keys;
      assert (a + b)[0] == a[0] && (a + b)[1..] == a[1..] + b;
      assert a == [a[0]] + a[1..];
      UsableConcat(a[1..], b, keys');
      assert keys - OwnedReps(a) == keys' - OwnedReps(a[1..]);
    }
  }

  /** The sequential condition is the declarative one. */
  lemma {:induction false} UsableIffNoUseAfterMove(hs: seq<Handle>, keys: set<nat>)
    ensures Usable(hs, keys) <==> AllIn(hs, keys) && NoUseAfterMove(hs)
  {
    if hs != [] && hs[0].res.Host? {
      var rest := hs[1..];
      var keys' := if hs[0].owned then keys - {hs[0].res.rep} else keys;
      UsableIffNoUseAfterMove(rest, keys');
      assert hs == [hs[0]] + rest;
      if AllIn(hs, keys) && NoUseAfterMove(hs) {
        forall h | h in rest ensures h.res.Host? && h.res.rep in keys' {
          var j :| 0 <= j < |rest| && rest[j] == h;
          assert hs[j + 1] == h;
        }
        forall i, j | 0 <= i < j < |rest| && rest[i].owned && rest[i].res.Host? && rest[j].res.Host?
          ensures rest[i].res.rep != rest[j].res.rep
        {
          assert hs[i + 1] == rest[i] && hs[j + 1] == rest[j];
        }
      }
      if hs[0].res.rep in keys && AllIn(rest, keys') && NoUseAfterMove(rest) {
        forall i, j | 0 <= i < j < |hs| && hs[i].owned && hs[i].res.Host? && hs[j].res.Host?
          ensures hs[i].res.rep != hs[j].res.rep
        {
          assert hs[j] == rest[j - 1] && rest[j - 1] in rest;
          if i > 0 {
            assert hs[i] == rest[i - 1];
          }
        }
      }
    }
  }

  // ---- Stateless reference for the direction to the callee ----

  /** Replaces every handle by the resource parked under it, all looked up in one snapshot. */
  function Resolve(m: map<nat, Stored>, v: Val, ty: Type): Val
    decreases v
  {
    match ty
    case ListT(e) =>
      if v.ListV? then ListV(seq(|v.elems|, i requires 0 <= i < |v.elems| => Resolve(m, v.elems[i], e))) else v
    case TupleT(tys) =>
      if v.TupleV? && |v.elems| == |tys| then
        TupleV(seq(|tys|, i requires 0 <= i < |tys| => Resolve(m, v.elems[i], tys[i])))
      else v
    case RecordT(fts) =>
      if v.RecordV? && |v.fields| == |fts| then
        RecordV(seq(|fts|, i requires 0 <= i < |fts| =>
          FieldV(v.fields[i].name, Resolve(m, v.fields[i].val, fts[i].ty))))
      else v
    case VariantT(cs) =>
      if v.VariantV? && FindCase(cs, v.name).Some? then
        VariantV(v.name, OptResolve(m, v.payload, FindCase(cs, v.name).value.ty))
      else v
    case OptionT(e) => if v.OptionV? then OptionV(OptResolve(m, v.payload, Some(e))) else v
    case ResultT(ok, err) =>
      if v.ResultV? then ResultV(v.isOk, OptResolve(m, v.payload, if v.isOk then ok else err)) else v
    case OwnT(_) => ResolveHandle(m, v)
    case BorrowT(_) => ResolveHandle(m, v)
    case _ => v
  }

  function OptResolve(m: map<nat, Stored>, v: Option<Val>, ty: Option<Type>): Option<Val>
    decreases v
  {
    if v.Some? && ty.Some? then Some(Resolve(m, v.value, ty.value)) else v
  }

  function ResolveHandle(m: map<nat, Stored>, v: Val): Val {
    if v.ResourceV? && v.resource.Host? && v.resource.rep in m then ResourceV(m[v.resource.rep].resource) else v
  }

  // ---- Soundness towards the callee ----

  /** What the translation of one argument amounts to, for a table holding part of the snapshot `m`. */
  ghost predicate Delivered<T>(m: map<nat, Stored>, t: Table, hs: seq<Handle>, o: Outcome<T>, expected: T) {
    && AllIn(hs, m.Keys)
    && (o.result.Ok? <==> Usable(hs, t.resources.Keys))
    && (o.result.Ok? ==> o.result.value == expected && o.table == t.(resources := t.resources - OwnedReps(hs)))
  }

  ghost predicate PartOf(t: Table, m: map<nat, Stored>) {
    forall rep | rep in t.resources :: rep in m && t.resources[rep] == m[rep]
  }

  lemma {:induction false} DeliverValue(m: map<nat, Stored>, t: Table, v: Val, it: Type, bs: seq<Binding>)
    requires HasType(ImportSide(m, bs), v, it) && PartOf(t, m)
    ensures Delivered(m, t, Handles(v, it), MapValue(ToCallee, t, v, it, bs), Resolve(m, v, it))
    decreases v
  {
    if PassThrough(it) {
      assert t.resources - OwnedReps([]) == t.resources;
    } else {
      match it
      case ListT(e) =>
        DeliverValues(m, t, v.elems, Repeat(e, |v.elems|), bs);
        assert Resolve(m, v, it).elems == Resolved(m, v.elems, Repeat(e, |v.elems|));
      case TupleT(tys) =>
        DeliverValues(m, t, v.elems, tys, bs);
        assert Resolve(m, v, it).elems == Resolved(m, v.elems, tys);
      case RecordT(fts) =>
        DeliverFields(m, t, v.fields, fts, bs);
        assert Resolve(m, v, it).fields == ResolvedFields(m, v.fields, fts);
      case VariantT(cs) => DeliverOption(m, t, v.payload, FindCase(cs, v.name).value.ty, bs);
      case OptionT(e) =>
        if v.payload.Some? {
          DeliverValue(m, t, v.payload.value, e, bs);
        } else {
          assert t.resources - OwnedReps([]) == t.resources;
        }
      case ResultT(ok, err) => DeliverOption(m, t, v.payload, if v.isOk then ok else err, bs);
      case OwnT(r) => DeliverHandle(m, t, v.resource, r, true, bs);
      case BorrowT(r) => DeliverHandle(m, t, v.resource, r, false, bs);
    }
  }

  lemma DeliverHandle(m: map<nat, Stored>, t: Table, r: ResourceAny, ty: ResourceType, owned: bool, bs: seq<Binding>)
    requires HandleTyped(ImportSide(m, bs), r, ty) && PartOf(t, m)
    ensures Delivered(m, t, [Handle(r, owned, ty)], MapResource(ToCallee, t, r, ty, owned, bs),
                      ResolveHandle(m, ResourceV(r)))
  {
    var hs := [Handle(r, owned, ty)];
    assert hs[1..] == [] && hs[0] in hs;
    assert OwnedReps(hs) == if owned then {r.rep} else {};
    assert t.resources - {} == t.resources;
  }

  lemma {:induction false} DeliverOption(m: map<nat, Stored>, t: Table, v: Option<Val>, it: Option<Type>,
                                         bs: seq<Binding>)
    requires OptHasType(ImportSide(m, bs), v, it) && PartOf(t, m)
    ensures Delivered(m, t, OptHandles(v, it), MapOption(ToCallee, t, v, it, bs), OptResolve(m, v, it))
    decreases v
  {
    if v.Some? {
      DeliverValue(m, t, v.value, it.value, bs);
    } else {
      assert t.resources - OwnedReps([]) == t.resources;
    }
  }

  function Resolved(m: map<nat, Stored>, vs: seq<Val>, tys: seq<Type>): seq<Val>
    requires |vs| == |tys|
  {
    seq(|vs|, i requires 0 <= i < |vs| => Resolve(m, vs[i], tys[i]))
  }

  function ResolvedFields(m: map<nat, Stored>, fs: seq<FieldV>, fts: seq<FieldT>): seq<FieldV>
    requires |fs| == |fts|
  {
    seq(|fs|, i requires 0 <= i < |fs| => FieldV(fs[i].name, Resolve(m, fs[i].val, fts[i].ty)))
  }

  lemma ResolvedCons(m: map<nat, Stored>, vs: seq<Val>, tys: seq<Type>)
    requires |vs| == |tys| > 0
    ensures Resolved(m, vs, tys) == [Resolve(m, vs[0], tys[0])] + Resolved(m, vs[1..], tys[1..])
  {}

  lemma ResolvedFieldsCons(m: map<nat, Stored>, fs: seq<FieldV>, fts: seq<FieldT>)
    requires |fs| == |fts| > 0
    ensures ResolvedFields(m, fs, fts)
         == [FieldV(fs[0].name, Resolve(m, fs[0].val, fts[0].ty))] + ResolvedFields(m, fs[1..], fts[1..])
  {}

  lemma DeliverySplits(m: map<nat, Stored>, t: Table, a: seq<Handle>, b: seq<Handle>, head: Outcome<Val>, x: Val)
    requires Delivered(m, t, a, head, x) && head.result.Ok? && PartOf(t, m)
    ensures PartOf(head.table, m) && head.table.resources.Keys == t.resources.Keys - OwnedReps(a)
    ensures Usable(a + b, t.resources.Keys) <==> Usable(b, head.table.resources.Keys)
    ensures head.table.(resources := head.table.resources - OwnedReps(b))
         == t.(resources := t.resources - OwnedReps(a + b))
  {
    UsableConcat(a, b, t.resources.Keys);
  }

  lemma {:induction false} DeliverValues(m: map<nat, Stored>, t: Table, vs: seq<Val>, its: seq<Type>, bs: seq<Binding>)
    requires |vs| == |its| && PartOf(t, m) && AllTyped(ImportSide(m, bs), vs, its)
    ensures Delivered(m, t, HandlesOf(vs, its), MapValues(ToCallee, t, vs, its, bs), Resolved(m, vs, its))
    decreases vs
  {
    if vs == [] {
      assert t.resources - OwnedReps([]) == t.resources && Resolved(m, vs, its) == [];
    } else {
      var a, b := Handles(vs[0], its[0]), HandlesOf(vs[1..], its[1..]);
      var head := MapValue(ToCallee, t, vs[0], its[0], bs);
      AllTypedCons(ImportSide(m, bs), vs, its);
      DeliverValue(m, t, vs[0], its[0], bs);
      UsableConcat(a, b, t.resources.Keys);
      DeliverValues(m, t, vs[1..], its[1..], bs);
      ResolvedCons(m, vs, its);
      if head.result.Ok? {
        DeliverySplits(m, t, a, b, head, Resolve(m, vs[0], its[0]));
        DeliverValues(m, head.table, vs[1..], its[1..], bs);
      }
    }
  }

  lemma {:induction false} DeliverFields(m: map<nat, Stored>, t: Table, fs: seq<FieldV>, its: seq<FieldT>,
                                         bs: seq<Binding>)
    requires |fs| == |its| && PartOf(t, m) && FieldsTyped(ImportSide(m, bs), fs, its)
    requires forall i | 0 <= i < |fs| :: fs[i].name == its[i].name
    ensures Delivered(m, t, FieldHandles(fs, its), MapFields(ToCallee, t, fs, its, bs), ResolvedFields(m, fs, its))
    decreases fs
  {
    if fs == [] {
      assert t.resources - OwnedReps([]) == t.resources && ResolvedFields(m, fs, its) == [];
    } else {
      var a, b := Handles(fs[0].val, its[0].ty), FieldHandles(fs[1..], its[1..]);
      var head := MapValue(ToCallee, t, fs[0].val, its[0].ty, bs);
      FieldsTypedCons(ImportSide(m, bs), fs, its);
      DeliverValue(m, t, fs[0].val, its[0].ty, bs);
      UsableConcat(a, b, t.resources.Keys);
      DeliverFields(m, t, fs[1..], its[1..], bs);
      ResolvedFieldsCons(m, fs, its);
      if head.result.Ok? {
        DeliverySplits(m, t, a, b, head, Resolve(m, fs[0].val, its[0].ty));
        DeliverFields(m, head.table, fs[1..], its[1..], bs);
      }
    }
  }

  /** A resolved argument has the callee's type exactly when the value agrees with the signature. */
  lemma {:induction false} ResolveTyped(m: map<nat, Stored>, v: Val, it: Type, ct: Type, bs: seq<Binding>)
    requires TypesMatch(it, ct, Some(bs)) && HasType(ImportSide(m, bs), v, it)
    ensures HasType(CalleeSide, Resolve(m, v, it), ct) <==> Agrees(v, it, ct, bs)
    decreases v, 1
  {
    match it
    case ListT(e) => AggregateResolveTyped(m, v, it, ct, bs);
    case TupleT(tys) => AggregateResolveTyped(m, v, it, ct, bs);
    case RecordT(fts) => AggregateResolveTyped(m, v, it, ct, bs);
    case VariantT(cs) =>
      var i := FindCaseIndex(cs, ct.cases, v.name);
      OptResolveTyped(m, v.payload, cs[i].ty, ct.cases[i].ty, bs);
    case OptionT(e) => if v.payload.Some? { ResolveTyped(m, v.payload.value, e, ct.some, bs); }
    case ResultT(ok, err) =>
      if v.isOk {
        OptResolveTyped(m, v.payload, ok, ct.ok, bs);
      } else {
        OptResolveTyped(m, v.payload, err, ct.err, bs);
      }
    case _ =>
  }

  lemma {:induction false} AggregateResolveTyped(m: map<nat, Stored>, v: Val, it: Type, ct: Type, bs: seq<Binding>)
    requires it.ListT? || it.TupleT? || it.RecordT?
    requires TypesMatch(it, ct, Some(bs)) && HasType(ImportSide(m, bs), v, it)
    ensures HasType(CalleeSide, Resolve(m, v, it), ct) <==> Agrees(v, it, ct, bs)
    decreases v, 0
  {
    match it
    case ListT(e) =>
      forall i | 0 <= i < |v.elems|
        ensures HasType(CalleeSide, Resolve(m, v, it).elems[i], ct.elem) <==> Agrees(v.elems[i], e, ct.elem, bs)
      {
        ResolveTyped(m, v.elems[i], e, ct.elem, bs);
      }
    case TupleT(tys) =>
      forall i | 0 <= i < |tys|
        ensures HasType(CalleeSide, Resolve(m, v, it).elems[i], ct.elems[i])
           <==> Agrees(v.elems[i], tys[i], ct.elems[i], bs)
      {
        ResolveTyped(m, v.elems[i], tys[i], ct.elems[i], bs);
      }
    case RecordT(fts) =>
      forall i | 0 <= i < |fts|
        ensures HasType(CalleeSide, Resolve(m, v, it).fields[i].val, ct.fields[i].ty)
           <==> Agrees(v.fields[i].val, fts[i].ty, ct.fields[i].ty, bs)
      {
        ResolveTyped(m, v.fields[i].val, fts[i].ty, ct.fields[i].ty, bs);
      }
  }

  lemma {:induction false} OptResolveTyped(m: map<nat, Stored>, v: Option<Val>, it: Option<Type>, ct: Option<Type>,
                                           bs: seq<Binding>)
    requires OptTypesMatch(it, ct, Some(bs)) && OptHasType(ImportSide(m, bs), v, it)
    ensures OptHasType(CalleeSide, OptResolve(m, v, it), ct) <==> OptAgrees(v, it, ct, bs)
    decreases v
  {
    if v.Some? {
      ResolveTyped(m, v.value, it.value, ct.value, bs);
    }
  }

  /**
    Soundness towards the callee.  For any matched signature and any well-typed argument the
    translation succeeds exactly when no handle is used after it was moved.  It then equals the
    stateless substitution and has taken exactly the owned reps, and it is well typed for the
    callee exactly when the value agrees with the signature.
   */
  lemma ToCalleeSound(t: Table, v: Val, it: Type, ct: Type, bs: seq<Binding>)
    requires TypesMatch(it, ct, Some(bs)) && HasType(ImportSide(t.resources, bs), v, it)
    ensures var o := MapValue(ToCallee, t, v, it, bs);
            && (o.result.Ok? <==> NoUseAfterMove(Handles(v, it)))
            && (o.result.Ok? ==>
                  && o.result.value == Resolve(t.resources, v, it)
                  && (HasType(CalleeSide, o.result.value, ct) <==> Agrees(v, it, ct, bs))
                  && o.table == t.(resources := t.resources - OwnedReps(Handles(v, it))))
  {
    DeliverValue(t.resources, t, v, it, bs);
    ResolveTyped(t.resources, v, it, ct, bs);
    UsableIffNoUseAfterMove(Handles(v, it), t.resources.Keys);
  }

  /** The same for a whole argument list, mapped left to right as the import shim does. */
  lemma ArgumentsSound(t: Table, vs: seq<Val>, its: seq<Type>, cts: seq<Type>, bs: seq<Binding>)
    requires |vs| == |its| == |cts| && AllTyped(ImportSide(t.resources, bs), vs, its)
    requires forall i | 0 <= i < |vs| :: TypesMatch(its[i], cts[i], Some(bs))
    ensures var o := MapValues(ToCallee, t, vs, its, bs);
            && (o.result.Ok? <==> NoUseAfterMove(HandlesOf(vs, its)))
            && (o.result.Ok? ==>
                  && o.result.value == Resolved(t.resources, vs, its)
                  && (forall i | 0 <= i < |vs| ::
                        HasType(CalleeSide, o.result.value[i], cts[i]) <==> Agrees(vs[i], its[i], cts[i], bs))
                  && o.table == t.(resources := t.resources - OwnedReps(HandlesOf(vs, its))))
  {
    DeliverValues(t.resources, t, vs, its, bs);
    UsableIffNoUseAfterMove(HandlesOf(vs, its), t.resources.Keys);
    forall i | 0 <= i < |vs|
      ensures HasType(CalleeSide, Resolved(t.resources, vs, its)[i], cts[i]) <==> Agrees(vs[i], its[i], cts[i], bs)
    {
      ResolveTyped(t.resources, vs[i], its[i], cts[i], bs);
    }
  }

  // ---- Soundness of results ----

  /** The translated handles are owned host handles under consecutive reps starting at `lo`. */
  ghost predicate Minted(lo: nat, from: seq<Handle>, to: seq<Handle>, t': Table) {
    && |to| == |from|
    && t'.nextRep == lo + |from|
    && forall i | 0 <= i < |to| ::
         && to[i].owned && to[i].res.Host? && to[i].res.rep == lo + i
         && lo + i in t'.resources && t'.resources[lo + i].resource == from[i].res
  }

  predicate AllOwned(hs: seq<Handle>) {
    forall h | h in hs :: h.owned
  }

  predicate AllImported(hs: seq<Handle>, bs: seq<Binding>) {
    forall h | h in hs :: Imports(bs, h.ty)
  }

  lemma MintedConcat(lo: nat, a: seq<Handle>, a': seq<Handle>, t: Table, b: seq<Handle>, b': seq<Handle>, t': Table)
    requires Minted(lo, a, a', t) && Grows(t, t') && Minted(t.nextRep, b, b', t')
    ensures Minted(lo, a + b, a' + b', t')
  {
    forall i | 0 <= i < |a' + b'|
      ensures (a' + b')[i].owned && (a' + b')[i].res.Host? && (a' + b')[i].res.rep == lo + i
      ensures lo + i in t'.resources && t'.resources[lo + i].resource == (a + b)[i].res
    {
      if i >= |a| {
        assert (a' + b')[i] == b'[i - |a|] && (a + b)[i] == b[i - |a|];
        assert t.nextRep + (i - |a|) == lo + i;
      } else {
        assert (a' + b')[i] == a'[i] && (a + b)[i] == a[i];
      }
    }
  }

  /** When a result comes back: no borrow, a binding for every handle, and room for the reps. */
  ghost predicate Returned(t: Table, hs: seq<Handle>, bs: seq<Binding>, ok: bool) {
    ok <==> AllOwned(hs) && AllImported(hs, bs) && t.nextRep + |hs| <= U32_MAX
  }

  lemma ReturnedConcat(t: Table, a: seq<Handle>, b: seq<Handle>, bs: seq<Binding>)
    ensures AllOwned(a + b) <==> AllOwned(a) && AllOwned(b)
    ensures AllImported(a + b, bs) <==> AllImported(a, bs) && AllImported(b, bs)
  {
    assert forall h :: h in a + b <==> h in a || h in b;
  }

  lemma {:induction false} FindBindingIff(bs: seq<Binding>, r: ResourceType)
    ensures FindBinding(bs, r).Some? <==> Imports(bs, r)
  {
    if bs != [] {
      FindBindingIff(bs[1..], r);
      if k :| 0 <= k < |bs| && bs[k].importRes == r {
        assert k > 0 ==> bs[1..][k - 1].importRes == r;
      }
      assert forall k | 0 <= k < |bs[1..]| :: bs[1..][k] == bs[k + 1];
    }
  }

  /** The table keeps what a result translation from `lo` on has parked. */
  ghost predicate Parked(m: map<nat, Stored>, lo: nat, t': Table) {
    Holds(Table(0, 0, map[], m), lo, t')
  }

  lemma {:induction false} ReturnValue(t: Table, m: map<nat, Stored>, v: Val, it: Type, ct: Type, bs: seq<Binding>)
    requires TypesMatch(it, ct, Some(bs)) && HasType(CalleeSide, v, ct) && t.nextRep <= U32_MAX
    ensures var o := MapValue(FromCallee, t, v, it, bs);
            && Returned(t, Handles(v, it), bs, o.result.Ok?)
            && (o.result.Ok? ==> Minted(t.nextRep, Handles(v, it), Handles(o.result.value, it), o.table))
            && (o.result.Ok? && Parked(m, t.nextRep, o.table) ==>
                  (HasType(ImportSide(m, bs), o.result.value, it) <==> Agrees(v, it, ct, bs)))
    decreases v, 1
  {
    if PassThrough(it) {
    } else if it.ListT? || it.TupleT? || it.RecordT? {
      ReturnAggregate(t, m, v, it, ct, bs);
    } else if it.OwnT? || it.BorrowT? {
      ReturnHandle(t, m, v, it, ct, bs);
    } else {
      ReturnPayload(t, m, v, it, ct, bs);
    }
  }

  lemma ReturnHandle(t: Table, m: map<nat, Stored>, v: Val, it: Type, ct: Type, bs: seq<Binding>)
    requires it.OwnT? || it.BorrowT?
    requires TypesMatch(it, ct, Some(bs)) && HasType(CalleeSide, v, ct) && t.nextRep <= U32_MAX
    ensures var o := MapValue(FromCallee, t, v, it, bs);
            && Returned(t, Handles(v, it), bs, o.result.Ok?)
            && (o.result.Ok? ==> Minted(t.nextRep, Handles(v, it), Handles(o.result.value, it), o.table))
            && (o.result.Ok? && Parked(m, t.nextRep, o.table) ==>
                  (HasType(ImportSide(m, bs), o.result.value, it) <==> Agrees(v, it, ct, bs)))
  {
    FindBindingIff(bs, it.resource);
    assert Handles(v, it) == [Handle(v.resource, it.OwnT?, it.resource)];
    assert Handles(v, it)[0] in Handles(v, it);
  }

  lemma {:induction false} ReturnAggregate(t: Table, m: map<nat, Stored>, v: Val, it: Type, ct: Type, bs: seq<Binding>)
    requires it.ListT? || it.TupleT? || it.RecordT?
    requires TypesMatch(it, ct, Some(bs)) && HasType(CalleeSide, v, ct) && t.nextRep <= U32_MAX
    ensures var o := MapValue(FromCallee, t, v, it, bs);
            && Returned(t, Handles(v, it), bs, o.result.Ok?)
            && (o.result.Ok? ==> Minted(t.nextRep, Handles(v, it), Handles(o.result.value, it), o.table))
            && (o.result.Ok? && Parked(m, t.nextRep, o.table) ==>
                  (HasType(ImportSide(m, bs), o.result.value, it) <==> Agrees(v, it, ct, bs)))
    decreases v, 0
  {
    match it
    case ListT(e) =>
      ReturnValues(t, m, v.elems, Repeat(e, |v.elems|), Repeat(ct.elem, |v.elems|), bs);
      assert AllAgree(v.elems, Repeat(e, |v.elems|), Repeat(ct.elem, |v.elems|), bs) <==> Agrees(v, it, ct, bs);
    case TupleT(tys) => ReturnValues(t, m, v.elems, tys, ct.elems, bs);
    case RecordT(fts) => ReturnFields(t, m, v.fields, fts, ct.fields, bs);
  }

  lemma {:induction false} ReturnPayload(t: Table, m: map<nat, Stored>, v: Val, it: Type, ct: Type, bs: seq<Binding>)
    requires it.VariantT? || it.OptionT? || it.ResultT?
    requires TypesMatch(it, ct, Some(bs)) && HasType(CalleeSide, v, ct) && t.nextRep <= U32_MAX
    ensures var o := MapValue(FromCallee, t, v, it, bs);
            && Returned(t, Handles(v, it), bs, o.result.Ok?)
            && (o.result.Ok? ==> Minted(t.nextRep, Handles(v, it), Handles(o.result.value, it), o.table))
            && (o.result.Ok? && Parked(m, t.nextRep, o.table) ==>
                  (HasType(ImportSide(m, bs), o.result.value, it) <==> Agrees(v, it, ct, bs)))
    decreases v, 0
  {
    match it
    case VariantT(cs) =>
      var i := FindCaseIndex(cs, ct.cases, v.name);
      ReturnOption(t, m, v.payload, cs[i].ty, ct.cases[i].ty, bs);
    case OptionT(e) =>
      if v.payload.Some? {
        ReturnValue(t, m, v.payload.value, e, ct.some, bs);
      }
    case ResultT(ok, err) =>
      if v.isOk {
        ReturnOption(t, m, v.payload, ok, ct.ok, bs);
      } else {
        ReturnOption(t, m, v.payload, err, ct.err, bs);
      }
  }

  lemma {:induction false} ReturnOption(t: Table, m: map<nat, Stored>, v: Option<Val>, it: Option<Type>,
                                        ct: Option<Type>, bs: seq<Binding>)
    requires OptTypesMatch(it, ct, Some(bs)) && OptHasType(CalleeSide, v, ct) && t.nextRep <= U32_MAX
    ensures var o := MapOption(FromCallee, t, v, it, bs);
            && Returned(t, OptHandles(v, it), bs, o.result.Ok?)
            && (o.result.Ok? ==> Minted(t.nextRep, OptHandles(v, it), OptHandles(o.result.value, it), o.table))
            && (o.result.Ok? && Parked(m, t.nextRep, o.table) ==>
                  (OptHasType(ImportSide(m, bs), o.result.value, it) <==> OptAgrees(v, it, ct, bs)))
    decreases v
  {
    if v.Some? {
      ReturnValue(t, m, v.value, it.value, ct.value, bs);
    }
  }

  lemma {:induction false} ReturnValues(t: Table, m: map<nat, Stored>, vs: seq<Val>, its: seq<Type>, cts: seq<Type>,
                                        bs: seq<Binding>)
    requires |vs| == |its| == |cts| && t.nextRep <= U32_MAX && AllTyped(CalleeSide, vs, cts)
    requires forall i | 0 <= i < |vs| :: TypesMatch(its[i], cts[i], Some(bs))
    ensures var o := MapValues(FromCallee, t, vs, its, bs);
            && Returned(t, HandlesOf(vs, its), bs, o.result.Ok?)
            && (o.result.Ok? ==>
                  && |o.result.value| == |its|
                  && Minted(t.nextRep, HandlesOf(vs, its), HandlesOf(o.result.value, its), o.table)
                  && (Parked(m, t.nextRep, o.table) ==>
                        (AllTyped(ImportSide(m, bs), o.result.value, its) <==> AllAgree(vs, its, cts, bs))))
    decreases vs
  {
    if vs != [] {
      var a, b := Handles(vs[0], its[0]), HandlesOf(vs[1..], its[1..]);
      var head := MapValue(FromCallee, t, vs[0], its[0], bs);
      AllTypedCons(CalleeSide, vs, cts);
      ReturnValue(t, m, vs[0], its[0], cts[0], bs);
      ReturnedConcat(t, a, b, bs);
      if head.result.Ok? {
        var rest := MapValues(FromCallee, head.table, vs[1..], its[1..], bs);
        MapValueMoves(FromCallee, t, vs[0], its[0], bs);
        MapValuesMoves(FromCallee, head.table, vs[1..], its[1..], bs);
        ReturnValues(head.table, m, vs[1..], its[1..], cts[1..], bs);
        if rest.result.Ok? {
          var ws := [head.result.value] + rest.result.value;
          assert ws[1..] == rest.result.value;
          MintedConcat(t.nextRep, a, Handles(head.result.value, its[0]), head.table,
                       b, HandlesOf(rest.result.value, its[1..]), rest.table);
          AllTypedCons(ImportSide(m, bs), ws, its);
          AllAgreeCons(vs, its, cts, bs);
          if Parked(m, t.nextRep, rest.table) {
            ParkedSplits(m, t, head.table, rest.table);
          }
        }
      }
    }
  }

  lemma ParkedSplits(m: map<nat, Stored>, t: Table, mid: Table, t': Table)
    requires Grows(t, mid) && Grows(mid, t') && Parked(m, t.nextRep, t')
    ensures Parked(m, t.nextRep, mid) && Parked(m, mid.nextRep, t')
  {}

  lemma {:induction false} ReturnFields(t: Table, m: map<nat, Stored>, fs: seq<FieldV>, its: seq<FieldT>,
                                        cts: seq<FieldT>, bs: seq<Binding>)
    requires |fs| == |its| == |cts| && t.nextRep <= U32_MAX && FieldsTyped(CalleeSide, fs, cts)
    requires forall i | 0 <= i < |fs| :: fs[i].name == its[i].name && TypesMatch(its[i].ty, cts[i].ty, Some(bs))
    ensures var o := MapFields(FromCallee, t, fs, its, bs);
            && Returned(t, FieldHandles(fs, its), bs, o.result.Ok?)
            && (o.result.Ok? ==>
                  && |o.result.value| == |its|
                  && Minted(t.nextRep, FieldHandles(fs, its), FieldHandles(o.result.value, its), o.table)
                  && (forall i | 0 <= i < |its| :: o.result.value[i].name == its[i].name)
                  && (Parked(m, t.nextRep, o.table) ==>
                        (FieldsTyped(ImportSide(m, bs), o.result.value, its) <==> FieldsAgree(fs, its, cts, bs))))
    decreases fs
  {
    if fs != [] {
      var a, b := Handles(fs[0].val, its[0].ty), FieldHandles(fs[1..], its[1..]);
      var head := MapValue(FromCallee, t, fs[0].val, its[0].ty, bs);
      FieldsTypedCons(CalleeSide, fs, cts);
      ReturnValue(t, m, fs[0].val, its[0].ty, cts[0].ty, bs);
      ReturnedConcat(t, a, b, bs);
      if head.result.Ok? {
        var rest := MapFields(FromCallee, head.table, fs[1..], its[1..], bs);
        MapValueMoves(FromCallee, t, fs[0].val, its[0].ty, bs);
        MapFieldsMoves(FromCallee, head.table, fs[1..], its[1..], bs);
        ReturnFields(head.table, m, fs[1..], its[1..], cts[1..], bs);
        if rest.result.Ok? {
          var ws := [FieldV(fs[0].name, head.result.value)] + rest.result.value;
          assert ws[1..] == rest.result.value;
          MintedConcat(t.nextRep, a, Handles(head.result.value, its[0].ty), head.table,
                       b, FieldHandles(rest.result.value, its[1..]), rest.table);
          forall i | 0 <= i < |its| ensures ws[i].name == its[i].name {
            if i > 0 {
              assert ws[i] == rest.result.value[i - 1] && its[i] == its[1..][i - 1];
            }
          }
          FieldsTypedCons(ImportSide(m, bs), ws, its);
          FieldsAgreeCons(fs, its, cts, bs);
          if Parked(m, t.nextRep, rest.table) {
            ParkedSplits(m, t, head.table, rest.table);
          }
        }
      }
    }
  }

  /**
    Soundness of results.  For any matched signature a well-typed callee result comes back exactly
    when it holds no borrow, every handle it holds is of an imported resource, and the rep counter
    has room.  Its handles are then fresh and distinct, behind the i-th handle sits the i-th
    resource of the callee's value, and it is well typed for the importer exactly when the value
    agrees with the signature.
   */
  lemma FromCalleeSound(t: Table, v: Val, it: Type, ct: Type, bs: seq<Binding>)
    requires Valid(t) && TypesMatch(it, ct, Some(bs)) && HasType(CalleeSide, v, ct)
    ensures var o := MapValue(FromCallee, t, v, it, bs);
            var hs := Handles(v, it);
            && (o.result.Ok? <==> AllOwned(hs) && AllImported(hs, bs) && t.nextRep + |hs| <= U32_MAX)
            && (o.result.Ok? ==>
                  && (HasType(ImportSide(o.table.resources, bs), o.result.value, it) <==> Agrees(v, it, ct, bs))
                  && Minted(t.nextRep, hs, Handles(o.result.value, it), o.table)
                  && NoUseAfterMove(Handles(o.result.value, it)))
  {
    var o := MapValue(FromCallee, t, v, it, bs);
    ReturnValue(t, o.table.resources, v, it, ct, bs);
    MapValueMoves(FromCallee, t, v, it, bs);
  }

  // ---- What the conditions on signatures are for ----

  predicate Crosses(dir: Direction, t: Table, v: Val, ty: Type, bs: seq<Binding>) {
    Valid(t) && MapValue(dir, t, v, ty, bs).result.Ok?
  }

  /** A bare handle can cross, in either direction, exactly when its resource is imported. */
  lemma LeafCrosses(dir: Direction, r: ResourceType, bs: seq<Binding>)
    ensures (exists t: Table, v: Val :: Crosses(dir, t, v, OwnT(r), bs)) <==> Imports(bs, r)
  {
    FindBindingIff(bs, r);
    if Imports(bs, r) {
      var id := FindBinding(bs, r).value.typeId;
      var t := EMPTY_TABLE.(nextRep := 2, resources := map[1 := Stored(id, Guest(0, 0))]);
      var v := ResourceV(if dir.ToCallee? then Host(1, id) else Guest(0, 0));
      assert Crosses(dir, t, v, OwnT(r), bs);
    }
  }

  /** Identical resource types match without a binding, yet no value of them can cross. */
  lemma MatchedButUnbound(t: Table, v: Val, r: ResourceType, bs: seq<Binding>, dir: Direction)
    requires !Imports(bs, r)
    ensures TypesMatch(OwnT(r), OwnT(r), Some(bs))
    ensures MapValue(dir, t, v, OwnT(r), bs).result.Err?
  {
    FindBindingIff(bs, r);
  }

  /** With two bindings for one import the second one matches too, yet handles cross as the first one's resource. */
  lemma MatchedButIllTyped() returns (t: Table, v: Val, bs: seq<Binding>)
    ensures Valid(t) && TypesMatch(OwnT(1), OwnT(3), Some(bs)) && HasType(ImportSide(t.resources, bs), v, OwnT(1))
    ensures var o := MapValue(ToCallee, t, v, OwnT(1), bs);
            o.result.Ok? && !HasType(CalleeSide, o.result.value, OwnT(3))
  {
    bs := [Binding(1, 2, 7), Binding(1, 3, 8)];
    t := EMPTY_TABLE.(nextRep := 2, resources := map[1 := Stored(7, Guest(0, 2))]);
    v := ResourceV(Host(1, 7));
    assert bs[1].importRes == 1 && bs[1].calleeRes == 3;
  }

  // ---- Signatures for which every value agrees ----

  /** The futures and streams that the value holds have items without resources. */
  ghost predicate PlainAt(v: Val, ty: Type)
    decreases v
  {
    match ty
    case FutureT(item) => OptResourcesIn(item, iset{})
    case StreamT(item) => OptResourcesIn(item, iset{})
    case ListT(e) => v.ListV? ==> forall i | 0 <= i < |v.elems| :: PlainAt(v.elems[i], e)
    case TupleT(tys) =>
      v.TupleV? && |v.elems| == |tys| ==> forall i | 0 <= i < |tys| :: PlainAt(v.elems[i], tys[i])
    case RecordT(fts) =>
      v.RecordV? && |v.fields| == |fts| ==> forall i | 0 <= i < |fts| :: PlainAt(v.fields[i].val, fts[i].ty)
    case VariantT(cs) =>
      v.VariantV? && FindCase(cs, v.name).Some? ==> OptPlainAt(v.payload, FindCase(cs, v.name).value.ty)
    case OptionT(e) => v.OptionV? ==> OptPlainAt(v.payload, Some(e))
    case ResultT(ok, err) => v.ResultV? ==> OptPlainAt(v.payload, if v.isOk then ok else err)
    case _ => true
  }

  ghost predicate OptPlainAt(v: Option<Val>, ty: Option<Type>)
    decreases v
  {
    v.Some? && ty.Some? ==> PlainAt(v.value, ty.value)
  }

  /** The matcher's leaves, with imports bound once and told apart from the callee's resources. */
  ghost predicate BoundSignature(it: Type, ct: Type, bs: seq<Binding>) {
    TypesMatch(it, ct, Some(bs)) && ResourcesIn(it, BoundOnce(bs)) && ResourcesIn(ct, NotImported(bs))
  }

  ghost predicate OptBoundSignature(it: Option<Type>, ct: Option<Type>, bs: seq<Binding>) {
    if it.Some? then ct.Some? && BoundSignature(it.value, ct.value, bs) else ct == None
  }

  lemma OptParts(it: Option<Type>, ct: Option<Type>, bs: seq<Binding>)
    requires OptTypesMatch(it, ct, Some(bs)) && OptResourcesIn(it, BoundOnce(bs)) && OptResourcesIn(ct, NotImported(bs))
    ensures OptBoundSignature(it, ct, bs)
  {}

  /**
    When every import is bound once and no callee resource is imported, only futures and streams
    can go wrong: at any depth, in either direction, a value agrees exactly when the items of the
    futures and streams it holds mention no resource.
   */
  lemma {:induction false} AgreesIffPlain(v: Val, it: Type, ct: Type, bs: seq<Binding>)
    requires BoundSignature(it, ct, bs)
    ensures Agrees(v, it, ct, bs) <==> PlainAt(v, it)
    decreases v, 1
  {
    match it
    case FutureT(item) => ItemsEqualIffPlain(item, ct.item, bs);
    case StreamT(item) => ItemsEqualIffPlain(item, ct.item, bs);
    case ListT(e) => AggregateAgreesIffPlain(v, it, ct, bs);
    case TupleT(tys) => AggregateAgreesIffPlain(v, it, ct, bs);
    case RecordT(fts) => AggregateAgreesIffPlain(v, it, ct, bs);
    case VariantT(cs) =>
      if v.VariantV? {
        var i := FindCaseIndex(cs, ct.cases, v.name);
        if FindCase(cs, v.name).Some? {
          OptParts(cs[i].ty, ct.cases[i].ty, bs);
          OptAgreesIffPlain(v.payload, cs[i].ty, ct.cases[i].ty, bs);
        }
      }
    case OptionT(e) => if v.OptionV? { OptAgreesIffPlain(v.payload, Some(e), Some(ct.some), bs); }
    case ResultT(ok, err) =>
      if v.ResultV? {
        OptParts(ok, ct.ok, bs);
        OptParts(err, ct.err, bs);
        OptAgreesIffPlain(v.payload, if v.isOk then ok else err, if v.isOk then ct.ok else ct.err, bs);
      }
    case OwnT(r) => LeafBinding(r, ct.resource, bs);
    case BorrowT(r) => LeafBinding(r, ct.resource, bs);
    case _ =>
  }

  lemma {:induction false} AggregateAgreesIffPlain(v: Val, it: Type, ct: Type, bs: seq<Binding>)
    requires BoundSignature(it, ct, bs) && (it.ListT? || it.TupleT? || it.RecordT?)
    ensures Agrees(v, it, ct, bs) <==> PlainAt(v, it)
    decreases v, 0
  {
    match it
    case ListT(e) =>
      if v.ListV? {
        forall i | 0 <= i < |v.elems| ensures Agrees(v.elems[i], e, ct.elem, bs) <==> PlainAt(v.elems[i], e) {
          AgreesIffPlain(v.elems[i], e, ct.elem, bs);
        }
      }
    case TupleT(tys) =>
      if v.TupleV? && |v.elems| == |tys| {
        forall i | 0 <= i < |tys| ensures Agrees(v.elems[i], tys[i], ct.elems[i], bs) <==> PlainAt(v.elems[i], tys[i]) {
          AgreesIffPlain(v.elems[i], tys[i], ct.elems[i], bs);
        }
      }
    case RecordT(fts) =>
      if v.RecordV? && |v.fields| == |fts| {
        forall i | 0 <= i < |fts|
          ensures Agrees(v.fields[i].val, fts[i].ty, ct.fields[i].ty, bs) <==> PlainAt(v.fields[i].val, fts[i].ty)
        {
          AgreesIffPlain(v.fields[i].val, fts[i].ty, ct.fields[i].ty, bs);
        }
      }
  }

  lemma {:induction false} OptAgreesIffPlain(v: Option<Val>, it: Option<Type>, ct: Option<Type>, bs: seq<Binding>)
    requires OptBoundSignature(it, ct, bs)
    ensures OptAgrees(v, it, ct, bs) <==> OptPlainAt(v, it)
    decreases v
  {
    if v.Some? && it.Some? {
      AgreesIffPlain(v.value, it.value, ct.value, bs);
    }
  }

  /** Matched items of futures or streams are the same item exactly when they mention no resource. */
  lemma ItemsEqualIffPlain(a: Option<Type>, b: Option<Type>, bs: seq<Binding>)
    requires OptTypesMatch(a, b, Some(bs)) && OptResourcesIn(a, BoundOnce(bs)) && OptResourcesIn(b, NotImported(bs))
    ensures a == b <==> OptResourcesIn(a, iset{})
  {
    if OptResourcesIn(a, iset{}) {
      OptPlainMatchEqual(a, b, Some(bs));
    } else if a == b {
      ResourcesInBoth(a.value, BoundOnce(bs), NotImported(bs));
    }
  }

  lemma {:induction false} PlainAsyncEverywhere(v: Val, ty: Type)
    requires PlainAsync(ty)
    ensures PlainAt(v, ty)
    decreases v
  {
    match ty
    case ListT(e) =>
      if v.ListV? {
        forall i | 0 <= i < |v.elems| ensures PlainAt(v.elems[i], e) { PlainAsyncEverywhere(v.elems[i], e); }
      }
    case TupleT(tys) =>
      if v.TupleV? && |v.elems| == |tys| {
        forall i | 0 <= i < |tys| ensures PlainAt(v.elems[i], tys[i]) { PlainAsyncEverywhere(v.elems[i], tys[i]); }
      }
    case RecordT(fts) =>
      if v.RecordV? && |v.fields| == |fts| {
        forall i | 0 <= i < |fts| ensures PlainAt(v.fields[i].val, fts[i].ty) {
          PlainAsyncEverywhere(v.fields[i].val, fts[i].ty);
        }
      }
    case VariantT(cs) =>
      if v.VariantV? && FindCase(cs, v.name).Some? && v.payload.Some? && FindCase(cs, v.name).value.ty.Some? {
        var i := FindCaseIndex(cs, cs, v.name);
        PlainAsyncEverywhere(v.payload.value, cs[i].ty.value);
      }
    case OptionT(e) => if v.OptionV? && v.payload.Some? { PlainAsyncEverywhere(v.payload.value, e); }
    case ResultT(ok, err) =>
      if v.ResultV? && v.payload.Some? && (if v.isOk then ok else err).Some? {
        PlainAsyncEverywhere(v.payload.value, (if v.isOk then ok else err).value);
      }
    case _ =>
  }

  /** For a bridgeable signature every value agrees, so whatever crosses is well typed. */
  lemma BridgeableAgrees(v: Val, it: Type, ct: Type, bs: seq<Binding>)
    requires Bridgeable(it, ct, bs)
    ensures Agrees(v, it, ct, bs)
  {
    AgreesIffPlain(v, it, ct, bs);
    PlainAsyncEverywhere(v, it);
  }

  lemma {:induction false} ResourcesInBoth(ty: Type, a: iset<ResourceType>, b: iset<ResourceType>)
    requires ResourcesIn(ty, a) && ResourcesIn(ty, b) && a !! b
    ensures ResourcesIn(ty, iset{})
  {
    match ty
    case FutureT(item) => if item.Some? { ResourcesInBoth(item.value, a, b); }
    case StreamT(item) => if item.Some? { ResourcesInBoth(item.value, a, b); }
    case ListT(e) => ResourcesInBoth(e, a, b);
    case OptionT(e) => ResourcesInBoth(e, a, b);
    case ResultT(ok, err) =>
      if ok.Some? { ResourcesInBoth(ok.value, a, b); }
      if err.Some? { ResourcesInBoth(err.value, a, b); }
    case TupleT(tys) =>
      forall i | 0 <= i < |tys| ensures ResourcesIn(tys[i], iset{}) { ResourcesInBoth(tys[i], a, b); }
    case RecordT(fts) =>
      forall i | 0 <= i < |fts| ensures ResourcesIn(fts[i].ty, iset{}) { ResourcesInBoth(fts[i].ty, a, b); }
    case VariantT(cs) =>
      forall i | 0 <= i < |cs| ensures OptResourcesIn(cs[i].ty, iset{}) {
        if cs[i].ty.Some? {
          ResourcesInBoth(cs[i].ty.value, a, b);
        }
      }
    case _ =>
  }

  // ---- Ownership: which entries a translation can take ----

  /** Only reps passed as owned handles can leave the table, whatever the value and the outcome. */
  lemma {:induction false} TakesOnlyOwned(t: Table, v: Val, ty: Type, bs: seq<Binding>)
    ensures forall rep | rep in t.resources && rep !in MapValue(ToCallee, t, v, ty, bs).table.resources ::
              rep in OwnedReps(Handles(v, ty))
    decreases v
  {
    if !PassThrough(ty) {
      match v
      case ListV(vs) => if ty.ListT? { TakesOnlyOwnedValues(t, vs, Repeat(ty.elem, |vs|), bs); }
      case TupleV(vs) => if ty.TupleT? && |vs| == |ty.elems| { TakesOnlyOwnedValues(t, vs, ty.elems, bs); }
      case RecordV(fs) => if ty.RecordT? && |fs| == |ty.fields| { TakesOnlyOwnedFields(t, fs, ty.fields, bs); }
      case VariantV(n, p) =>
        if ty.VariantT? && FindCase(ty.cases, n).Some? && p.Some? && FindCase(ty.cases, n).value.ty.Some? {
          TakesOnlyOwned(t, p.value, FindCase(ty.cases, n).value.ty.value, bs);
        }
      case OptionV(p) => if ty.OptionT? && p.Some? { TakesOnlyOwned(t, p.value, ty.some, bs); }
      case ResultV(ok, p) =>
        if ty.ResultT? && p.Some? && (if ok then ty.ok else ty.err).Some? {
          TakesOnlyOwned(t, p.value, (if ok then ty.ok else ty.err).value, bs);
        }
      case ResourceV(r) =>
        if ty.OwnT? {
          assert Handles(v, ty)[0] == Handle(r, true, ty.resource);
        }
      case _ =>
    }
  }

  lemma OwnedConcat(a: seq<Handle>, b: seq<Handle>)
    ensures OwnedReps(a + b) == OwnedReps(a) + OwnedReps(b)
  {
    assert forall h :: h in a + b <==> h in a || h in b;
  }

  lemma {:induction false} TakesOnlyOwnedValues(t: Table, vs: seq<Val>, tys: seq<Type>, bs: seq<Binding>)
    requires |vs| == |tys|
    ensures forall rep | rep in t.resources && rep !in MapValues(ToCallee, t, vs, tys, bs).table.resources ::
              rep in OwnedReps(HandlesOf(vs, tys))
    decreases vs
  {
    if vs != [] {
      var head := MapValue(ToCallee, t, vs[0], tys[0], bs);
      TakesOnlyOwned(t, vs[0], tys[0], bs);
      TakesOnlyOwnedValues(head.table, vs[1..], tys[1..], bs);
      OwnedConcat(Handles(vs[0], tys[0]), HandlesOf(vs[1..], tys[1..]));
    }
  }

  lemma {:induction false} TakesOnlyOwnedFields(t: Table, fs: seq<FieldV>, fts: seq<FieldT>, bs: seq<Binding>)
    requires |fs| == |fts|
    ensures forall rep | rep in t.resources && rep !in MapFields(ToCallee, t, fs, fts, bs).table.resources ::
              rep in OwnedReps(FieldHandles(fs, fts))
    decreases fs
  {
    if fs != [] {
      var head := MapValue(ToCallee, t, fs[0].val, fts[0].ty, bs);
      TakesOnlyOwned(t, fs[0].val, fts[0].ty, bs);
      TakesOnlyOwnedFields(head.table, fs[1..], fts[1..], bs);
      OwnedConcat(Handles(fs[0].val, fts[0].ty), FieldHandles(fs[1..], fts[1..]));
    }
  }

  /** An argument that only borrows leaves the whole table as it was, also when it is refused. */
  lemma BorrowsLeaveTable(t: Table, v: Val, ty: Type, bs: seq<Binding>)
    requires forall h | h in Handles(v, ty) :: !h.owned
    ensures MapValue(ToCallee, t, v, ty, bs).table == t
  {
    TakesOnlyOwned(t, v, ty, bs);
    MapValueMoves(ToCallee, t, v, ty, bs);
    assert MapValue(ToCallee, t, v, ty, bs).table.resources == t.resources;
  }
}
