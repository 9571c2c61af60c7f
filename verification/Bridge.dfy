/**
  The wasm-to-wasm value bridge: component types and values, the recursive type matcher, and
  the stateful value translation.  Arguments travel `ToCallee` (bridged host handles are
  exchanged for the parked guest resources) and results travel `FromCallee` (guest resources
  are parked and replaced by fresh host handles).  The two translations differ only at
  resource leaves, so one function takes the direction as a parameter.
 */
module Bridge {
  import opened Wrappers
  import opened ResourceTable

  // ---- Component types and values ----

  /** Types whose values carry no structure the bridge looks at. */
  datatype Prim =
    | Bool | S8 | U8 | S16 | U16 | S32 | U32 | S64 | U64 | Float32 | Float64
    | Char | String | ErrorContext

  datatype FieldT = FieldT(name: string, ty: Type)
  datatype CaseT = CaseT(name: string, ty: Option<Type>)

  datatype Type =
    | PrimT(prim: Prim)
    | EnumT(names: seq<string>)
    | FlagsT(names: seq<string>)
    | FutureT(item: Option<Type>)
    | StreamT(item: Option<Type>)
    | ListT(elem: Type)
    | RecordT(fields: seq<FieldT>)
    | TupleT(elems: seq<Type>)
    | VariantT(cases: seq<CaseT>)
    | OptionT(some: Type)
    | ResultT(ok: Option<Type>, err: Option<Type>)
    | OwnT(resource: ResourceType)
    | BorrowT(resource: ResourceType)

  datatype FieldV = FieldV(name: string, val: Val)

  /** A future or stream value carries the item type it was created with. */
  datatype Val =
    | PrimV(prim: Prim, bits: int)
    | EnumV(name: string)
    | FlagsV(flags: seq<string>)
    | FutureV(handle: nat, item: Option<Type>)
    | StreamV(handle: nat, item: Option<Type>)
    | ListV(elems: seq<Val>)
    | RecordV(fields: seq<FieldV>)
    | TupleV(elems: seq<Val>)
    | VariantV(name: string, payload: Option<Val>)
    | OptionV(payload: Option<Val>)
    | ResultV(isOk: bool, payload: Option<Val>)
    | ResourceV(resource: ResourceAny)

  /** Pairs an imported resource with the callee's resource and the host type id between them. */
  datatype Binding = Binding(importRes: ResourceType, calleeRes: ResourceType, typeId: nat)

  // ---- Type matcher ----

  predicate ResourcesMatch(a: ResourceType, b: ResourceType, bs: Option<seq<Binding>>) {
    a == b || (bs.Some? && exists k | 0 <= k < |bs.value| :: bs.value[k].importRes == a && bs.value[k].calleeRes == b)
  }

  predicate TypesMatch(a: Type, b: Type, bs: Option<seq<Binding>>)
    decreases a
  {
    match a
    case PrimT(p) => b == a
    case EnumT(names) => b == a
    case FlagsT(names) => b == a
    case FutureT(item) => b.FutureT? && OptTypesMatch(item, b.item, bs)
    case StreamT(item) => b.StreamT? && OptTypesMatch(item, b.item, bs)
    case ListT(e) => b.ListT? && TypesMatch(e, b.elem, bs)
    case RecordT(fs) =>
      && b.RecordT? && |fs| == |b.fields|
      && forall i | 0 <= i < |fs| :: fs[i].name == b.fields[i].name && TypesMatch(fs[i].ty, b.fields[i].ty, bs)
    case TupleT(es) =>
      b.TupleT? && |es| == |b.elems| && forall i | 0 <= i < |es| :: TypesMatch(es[i], b.elems[i], bs)
    case VariantT(cs) =>
      && b.VariantT? && |cs| == |b.cases|
      && forall i | 0 <= i < |cs| :: cs[i].name == b.cases[i].name && OptTypesMatch(cs[i].ty, b.cases[i].ty, bs)
    case OptionT(e) => b.OptionT? && TypesMatch(e, b.some, bs)
    case ResultT(ok, err) => b.ResultT? && OptTypesMatch(ok, b.ok, bs) && OptTypesMatch(err, b.err, bs)
    case OwnT(r) => b.OwnT? && ResourcesMatch(r, b.resource, bs)
    case BorrowT(r) => b.BorrowT? && ResourcesMatch(r, b.resource, bs)
  }

  predicate OptTypesMatch(a: Option<Type>, b: Option<Type>, bs: Option<seq<Binding>>)
    decreases a
  {
    match a
    case None => b == None
    case Some(x) => b.Some? && TypesMatch(x, b.value, bs)
  }

  // ---- Value translation ----

  datatype Direction = ToCallee | FromCallee

  datatype BridgeError =
    | FieldCount | FieldName | TupleCount | UnknownCase | UnexpectedPayload | Unsupported
    | NoBinding | NotBridged | HostTypeMismatch | MissingResource | BorrowedResult | RepsExhausted

  /** The result of a translation together with the table it leaves, also when it failed. */
  datatype Outcome<T> = Outcome(result: Result<T, BridgeError>, table: Table)

  /** Values of these types cross unchanged, whatever the value is. */
  predicate PassThrough(ty: Type) {
    ty.PrimT? || ty.EnumT? || ty.FlagsT? || ty.FutureT? || ty.StreamT?
  }

  /** The first binding for an imported resource. */
  function FindBinding(bs: seq<Binding>, r: ResourceType): Option<Binding> {
    if bs == [] then None else if bs[0].importRes == r then Some(bs[0]) else FindBinding(bs[1..], r)
  }

  /** The payload type of the first case with the given name. */
  function FindCase(cs: seq<CaseT>, name: string): Option<CaseT> {
    if cs == [] then None else if cs[0].name == name then Some(cs[0]) else FindCase(cs[1..], name)
  }

  /** Lookups take the first entry with the wanted resource or name, and fail only if there is none. */
  lemma {:induction false} FindBindingIff(bs: seq<Binding>, r: ResourceType, k: nat)
    ensures FindBinding(bs, r).None? <==> forall i | 0 <= i < |bs| :: bs[i].importRes != r
    ensures k < |bs| && bs[k].importRes == r && (forall i | 0 <= i < k :: bs[i].importRes != r) ==>
      FindBinding(bs, r) == Some(bs[k])
  {
    if bs != [] && bs[0].importRes != r {
      FindBindingIff(bs[1..], r, if k > 0 then k - 1 else 0);
    }
  }

  lemma {:induction false} FindCaseIff(cs: seq<CaseT>, name: string, k: nat)
    ensures FindCase(cs, name).None? <==> forall i | 0 <= i < |cs| :: cs[i].name != name
    ensures k < |cs| && cs[k].name == name && (forall i | 0 <= i < k :: cs[i].name != name) ==>
      FindCase(cs, name) == Some(cs[k])
  {
    if cs != [] && cs[0].name != name {
      FindCaseIff(cs[1..], name, if k > 0 then k - 1 else 0);
    }
  }

  function MapResource(dir: Direction, t: Table, r: ResourceAny, ty: ResourceType, owned: bool, bs: seq<Binding>)
    : Outcome<Val>
  {
    if dir.FromCallee? && !owned then Outcome(Err(BorrowedResult), t)
    else match FindBinding(bs, ty)
      case None => Outcome(Err(NoBinding), t)
      case Some(b) =>
        match dir
        case ToCallee =>
          if !r.Host? then Outcome(Err(NotBridged), t)
          else if r.typeId != b.typeId then Outcome(Err(HostTypeMismatch), t)
          else if r.rep !in t.resources then Outcome(Err(MissingResource), t)
          else Outcome(Ok(ResourceV(t.resources[r.rep].resource)), if owned then Remove(t, r.rep) else t)
        case FromCallee =>
          match Insert(t, b.typeId, r)
          case None => Outcome(Err(RepsExhausted), t)
          case Some((t', rep)) => Outcome(Ok(ResourceV(Host(rep, b.typeId))), t')
  }

  function MapValue(dir: Direction, t: Table, v: Val, ty: Type, bs: seq<Binding>): Outcome<Val>
    decreases v
  {
    if PassThrough(ty) then Outcome(Ok(v), t)
    else match ty
      case ListT(e) =>
        if !v.ListV? then Outcome(Err(Unsupported), t)
        else Wrap(MapValues(dir, t, v.elems, Repeat(e, |v.elems|), bs), vs => ListV(vs))
      case RecordT(fts) =>
        if !v.RecordV? then Outcome(Err(Unsupported), t)
        else if |v.fields| != |fts| then Outcome(Err(FieldCount), t)
        else Wrap(MapFields(dir, t, v.fields, fts, bs), fs => RecordV(fs))
      case TupleT(tys) =>
        if !v.TupleV? then Outcome(Err(Unsupported), t)
        else if |v.elems| != |tys| then Outcome(Err(TupleCount), t)
        else Wrap(MapValues(dir, t, v.elems, tys, bs), vs => TupleV(vs))
      case VariantT(cs) =>
        if !v.VariantV? then Outcome(Err(Unsupported), t)
        else (match FindCase(cs, v.name)
              case None => Outcome(Err(UnknownCase), t)
              case Some(c) => Wrap(MapOption(dir, t, v.payload, c.ty, bs), p => VariantV(v.name, p)))
      case OptionT(e) =>
        if !v.OptionV? then Outcome(Err(Unsupported), t)
        else Wrap(MapOption(dir, t, v.payload, Some(e), bs), p => OptionV(p))
      case ResultT(ok, err) =>
        if !v.ResultV? then Outcome(Err(Unsupported), t)
        else Wrap(MapOption(dir, t, v.payload, if v.isOk then ok else err, bs), p => ResultV(v.isOk, p))
      case OwnT(r) =>
        if !v.ResourceV? then Outcome(Err(Unsupported), t)
        else MapResource(dir, t, v.resource, r, true, bs)
      case BorrowT(r) =>
        if !v.ResourceV? then Outcome(Err(Unsupported), t)
        else MapResource(dir, t, v.resource, r, false, bs)
  }

  function MapOption(dir: Direction, t: Table, v: Option<Val>, ty: Option<Type>, bs: seq<Binding>)
    : Outcome<Option<Val>>
    decreases v
  {
    match v
    case None => Outcome(Ok(None), t)
    case Some(x) =>
      if ty == None then Outcome(Err(UnexpectedPayload), t)
      else Wrap(MapValue(dir, t, x, ty.value, bs), y => Some(y))
  }

  function MapValues(dir: Direction, t: Table, vs: seq<Val>, tys: seq<Type>, bs: seq<Binding>): Outcome<seq<Val>>
    requires |vs| == |tys|
    decreases vs
  {
    if vs == [] then Outcome(Ok([]), t)
    else
      var head := MapValue(dir, t, vs[0], tys[0], bs);
      if head.result.Err? then Outcome(Err(head.result.error), head.table)
      else Prepend([head.result.value], MapValues(dir, head.table, vs[1..], tys[1..], bs))
  }

  function MapFields(dir: Direction, t: Table, fs: seq<FieldV>, fts: seq<FieldT>,
                     bs: seq<Binding>): Outcome<seq<FieldV>>
    requires |fs| == |fts|
    decreases fs
  {
    if fs == [] then Outcome(Ok([]), t)
    else if fs[0].name != fts[0].name then Outcome(Err(FieldName), t)
    else
      var head := MapValue(dir, t, fs[0].val, fts[0].ty, bs);
      if head.result.Err? then Outcome(Err(head.result.error), head.table)
      else Prepend([FieldV(fs[0].name, head.result.value)], MapFields(dir, head.table, fs[1..], fts[1..], bs))
  }

  function Repeat(ty: Type, n: nat): seq<Type> {
    seq(n, _ => ty)
  }

  function Wrap<A, B>(o: Outcome<A>, f: A -> B): Outcome<B> {
    match o.result
    case Ok(x) => Outcome(Ok(f(x)), o.table)
    case Err(e) => Outcome(Err(e), o.table)
  }

  function Prepend<A>(done: seq<A>, o: Outcome<seq<A>>): Outcome<seq<A>> {
    match o.result
    case Ok(rest) => Outcome(Ok(done + rest), o.table)
    case Err(e) => o
  }

  // ---- The translation as it runs: recursion and loops over a mutable table ----

  method BridgeResource(store: ResourceState, dir: Direction, r: ResourceAny, ty: ResourceType, owned: bool,
                        bs: seq<Binding>)
    returns (res: Result<Val, BridgeError>)
    modifies store
    ensures Outcome(res, store.View()) == MapResource(dir, old(store.View()), r, ty, owned, bs)
  {
    if dir.FromCallee? && !owned {
      return Err(BorrowedResult);
    }
    var found := FindBinding(bs, ty);
    if found == None {
      return Err(NoBinding);
    }
    var typeId := found.value.typeId;
    if dir.FromCallee? {
      var rep := store.InsertResource(typeId, r);
      return if rep.Some? then Ok(ResourceV(Host(rep.value, typeId))) else Err(RepsExhausted);
    }
    if !r.Host? {
      return Err(NotBridged);
    }
    if r.typeId != typeId {
      return Err(HostTypeMismatch);
    }
    var stored := if r.rep in store.resources then Some(store.resources[r.rep]) else None;
    if owned {
      stored := store.RemoveResource(r.rep);
      assert stored == None ==> store.resources == old(store.resources);
    }
    res := if stored.Some? then Ok(ResourceV(stored.value.resource)) else Err(MissingResource);
  }

  method BridgeValue(store: ResourceState, dir: Direction, v: Val, ty: Type, bs: seq<Binding>)
    returns (res: Result<Val, BridgeError>)
    modifies store
    ensures Outcome(res, store.View()) == MapValue(dir, old(store.View()), v, ty, bs)
    decreases v
  {
    if PassThrough(ty) {
      return Ok(v);
    }
    match ty {
      case ListT(e) =>
        if !v.ListV? { return Err(Unsupported); }
        var vs := BridgeValues(store, dir, v.elems, Repeat(e, |v.elems|), bs);
        res := if vs.Ok? then Ok(ListV(vs.value)) else Err(vs.error);
      case RecordT(fts) =>
        if !v.RecordV? { return Err(Unsupported); }
        if |v.fields| != |fts| { return Err(FieldCount); }
        var fs := BridgeFields(store, dir, v.fields, fts, bs);
        res := if fs.Ok? then Ok(RecordV(fs.value)) else Err(fs.error);
      case TupleT(tys) =>
        if !v.TupleV? { return Err(Unsupported); }
        if |v.elems| != |tys| { return Err(TupleCount); }
        var vs := BridgeValues(store, dir, v.elems, tys, bs);
        res := if vs.Ok? then Ok(TupleV(vs.value)) else Err(vs.error);
      case VariantT(cs) =>
        if !v.VariantV? { return Err(Unsupported); }
        var c := FindCase(cs, v.name);
        if c == None { return Err(UnknownCase); }
        var p := BridgeOption(store, dir, v.payload, c.value.ty, bs);
        res := if p.Ok? then Ok(VariantV(v.name, p.value)) else Err(p.error);
      case OptionT(e) =>
        if !v.OptionV? { return Err(Unsupported); }
        var p := BridgeOption(store, dir, v.payload, Some(e), bs);
        res := if p.Ok? then Ok(OptionV(p.value)) else Err(p.error);
      case ResultT(ok, err) =>
        if !v.ResultV? { return Err(Unsupported); }
        var p := BridgeOption(store, dir, v.payload, if v.isOk then ok else err, bs);
        res := if p.Ok? then Ok(ResultV(v.isOk, p.value)) else Err(p.error);
      case OwnT(r) =>
        if !v.ResourceV? { return Err(Unsupported); }
        res := BridgeResource(store, dir, v.resource, r, true, bs);
      case BorrowT(r) =>
        if !v.ResourceV? { return Err(Unsupported); }
        res := BridgeResource(store, dir, v.resource, r, false, bs);
    }
  }

  method BridgeOption(store: ResourceState, dir: Direction, v: Option<Val>, ty: Option<Type>, bs: seq<Binding>)
    returns (res: Result<Option<Val>, BridgeError>)
    modifies store
    ensures Outcome(res, store.View()) == MapOption(dir, old(store.View()), v, ty, bs)
    decreases v
  {
    if v == None {
      return Ok(None);
    }
    if ty == None {
      return Err(UnexpectedPayload);
    }
    var x := BridgeValue(store, dir, v.value, ty.value, bs);
    res := if x.Ok? then Ok(Some(x.value)) else Err(x.error);
  }

  method BridgeValues(store: ResourceState, dir: Direction, vs: seq<Val>, tys: seq<Type>, bs: seq<Binding>)
    returns (res: Result<seq<Val>, BridgeError>)
    requires |vs| == |tys|
    modifies store
    ensures Outcome(res, store.View()) == MapValues(dir, old(store.View()), vs, tys, bs)
    decreases vs, 0
  {
    var done := [];
    var i := 0;
    assert vs[0..] == vs && tys[0..] == tys && forall rest: seq<Val> :: done + rest == rest;
    while i < |vs|
      invariant 0 <= i <= |vs| && |done| == i
      invariant MapValues(dir, old(store.View()), vs, tys, bs)
             == Prepend(done, MapValues(dir, store.View(), vs[i..], tys[i..], bs))
    {
      var x := BridgeValue(store, dir, vs[i], tys[i], bs);
      assert vs[i..][1..] == vs[i + 1..] && tys[i..][1..] == tys[i + 1..];
      if x.Err? {
        return Err(x.error);
      }
      assert forall rest :: done + ([x.value] + rest) == (done + [x.value]) + rest;
      done := done + [x.value];
      i := i + 1;
    }
    assert done + [] == done;
    res := Ok(done);
  }

  method BridgeFields(store: ResourceState, dir: Direction, fs: seq<FieldV>, fts: seq<FieldT>, bs: seq<Binding>)
    returns (res: Result<seq<FieldV>, BridgeError>)
    requires |fs| == |fts|
    modifies store
    ensures Outcome(res, store.View()) == MapFields(dir, old(store.View()), fs, fts, bs)
    decreases fs, 0
  {
    var done := [];
    var i := 0;
    assert fs[0..] == fs && fts[0..] == fts && forall rest: seq<FieldV> :: done + rest == rest;
    while i < |fs|
      invariant 0 <= i <= |fs| && |done| == i
      invariant MapFields(dir, old(store.View()), fs, fts, bs)
             == Prepend(done, MapFields(dir, store.View(), fs[i..], fts[i..], bs))
    {
      if fs[i].name != fts[i].name {
        return Err(FieldName);
      }
      var x := BridgeValue(store, dir, fs[i].val, fts[i].ty, bs);
      assert fs[i..][1..] == fs[i + 1..] && fts[i..][1..] == fts[i + 1..];
      if x.Err? {
        return Err(x.error);
      }
      var f := FieldV(fs[i].name, x.value);
      assert forall rest :: done + ([f] + rest) == (done + [f]) + rest;
      done := done + [f];
      i := i + 1;
    }
    assert done + [] == done;
    res := Ok(done);
  }
}
