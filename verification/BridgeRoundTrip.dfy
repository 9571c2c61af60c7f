/**
  Laws of the bridge that hold for every value and type, well typed or not: how a
  translation may change the table, the result/argument round trip, and the linearity of
  the table over arbitrary runs of bridge calls and handle drops.
 */
module BridgeRoundTrip {
  import opened Wrappers
  import opened ResourceTable
  import opened Bridge

  // ---- What one translation may do to the table, on success and on failure ----

  /** Going to the callee only takes entries out. */
  predicate Shrinks(t: Table, t': Table) {
    && t' == t.(resources := t'.resources)
    && forall rep | rep in t'.resources :: rep in t.resources && t'.resources[rep] == t.resources[rep]
  }

  /** Coming back only adds entries, under exactly the reps the counter passed over. */
  ghost predicate Grows(t: Table, t': Table) {
    && t.nextRep <= t'.nextRep
    && t' == t.(nextRep := t'.nextRep, resources := t'.resources)
    && (t.nextRep <= U32_MAX ==> t'.nextRep <= U32_MAX)
    && (forall rep | rep < t.nextRep || t'.nextRep <= rep ::
          (rep in t'.resources <==> rep in t.resources)
          && (rep in t.resources ==> t'.resources[rep] == t.resources[rep]))
    && (forall rep | t.nextRep <= rep < t'.nextRep :: rep in t'.resources)
  }

  ghost predicate Moves(dir: Direction, t: Table, t': Table) {
    match dir
    case ToCallee => Shrinks(t, t')
    case FromCallee => Grows(t, t')
  }

  lemma MovesTransitive(dir: Direction, a: Table, b: Table, c: Table)
    requires Moves(dir, a, b) && Moves(dir, b, c)
    ensures Moves(dir, a, c)
  {}

  lemma {:induction false} MapValueMoves(dir: Direction, t: Table, v: Val, ty: Type, bs: seq<Binding>)
    ensures Moves(dir, t, MapValue(dir, t, v, ty, bs).table)
    decreases v
  {
    if !PassThrough(ty) {
      match v
      case ListV(vs) => if ty.ListT? { MapValuesMoves(dir, t, vs, Repeat(ty.elem, |vs|), bs); }
      case TupleV(vs) => if ty.TupleT? && |vs| == |ty.elems| { MapValuesMoves(dir, t, vs, ty.elems, bs); }
      case RecordV(fs) => if ty.RecordT? && |fs| == |ty.fields| { MapFieldsMoves(dir, t, fs, ty.fields, bs); }
      case VariantV(n, p) =>
        if ty.VariantT? && FindCase(ty.cases, n).Some? {
          MapOptionMoves(dir, t, p, FindCase(ty.cases, n).value.ty, bs);
        }
      case OptionV(p) => if ty.OptionT? { MapOptionMoves(dir, t, p, Some(ty.some), bs); }
      case ResultV(ok, p) => if ty.ResultT? { MapOptionMoves(dir, t, p, if ok then ty.ok else ty.err, bs); }
      case _ =>
    }
  }

  lemma {:induction false} MapOptionMoves(dir: Direction, t: Table, v: Option<Val>, ty: Option<Type>, bs: seq<Binding>)
    ensures Moves(dir, t, MapOption(dir, t, v, ty, bs).table)
    decreases v
  {
    if v.Some? && ty.Some? {
      MapValueMoves(dir, t, v.value, ty.value, bs);
    }
  }

  lemma {:induction false} MapValuesMoves(dir: Direction, t: Table, vs: seq<Val>, tys: seq<Type>, bs: seq<Binding>)
    requires |vs| == |tys|
    ensures Moves(dir, t, MapValues(dir, t, vs, tys, bs).table)
    decreases vs
  {
    if vs != [] {
      MapValueMoves(dir, t, vs[0], tys[0], bs);
      var head := MapValue(dir, t, vs[0], tys[0], bs);
      if head.result.Ok? {
        MapValuesMoves(dir, head.table, vs[1..], tys[1..], bs);
        MovesTransitive(dir, t, head.table, MapValues(dir, head.table, vs[1..], tys[1..], bs).table);
      }
    }
  }

  lemma {:induction false} MapFieldsMoves(dir: Direction, t: Table, fs: seq<FieldV>, fts: seq<FieldT>, bs: seq<Binding>)
    requires |fs| == |fts|
    ensures Moves(dir, t, MapFields(dir, t, fs, fts, bs).table)
    decreases fs
  {
    if fs != [] && fs[0].name == fts[0].name {
      MapValueMoves(dir, t, fs[0].val, fts[0].ty, bs);
      var head := MapValue(dir, t, fs[0].val, fts[0].ty, bs);
      if head.result.Ok? {
        MapFieldsMoves(dir, head.table, fs[1..], fts[1..], bs);
        MovesTransitive(dir, t, head.table, MapFields(dir, head.table, fs[1..], fts[1..], bs).table);
      }
    }
  }

  // ---- Round trip ----

  /** `u` still holds every entry `t'` gained while its counter moved from `lo`. */
  predicate Holds(u: Table, lo: nat, t': Table) {
    forall rep | lo <= rep < t'.nextRep ::
      rep in u.resources && rep in t'.resources && u.resources[rep] == t'.resources[rep]
  }

  function Without(u: Table, lo: nat, hi: nat): Table {
    u.(resources := map rep | rep in u.resources && !(lo <= rep < hi) :: u.resources[rep])
  }

  lemma WithoutSplit(u: Table, lo: nat, mid: nat, hi: nat)
    requires lo <= mid <= hi
    ensures Without(Without(u, lo, mid), mid, hi) == Without(u, lo, hi)
  {}

  /** A value that came back can be handed over again from any table that still holds its entries. */
  lemma {:induction false} ReturnsFrom(t: Table, u: Table, v: Val, ty: Type, bs: seq<Binding>)
    requires var o := MapValue(FromCallee, t, v, ty, bs); o.result.Ok? && Holds(u, t.nextRep, o.table)
    ensures var o := MapValue(FromCallee, t, v, ty, bs);
            MapValue(ToCallee, u, o.result.value, ty, bs) == Outcome(Ok(v), Without(u, t.nextRep, o.table.nextRep))
    decreases v
  {
    var o := MapValue(FromCallee, t, v, ty, bs);
    if PassThrough(ty) {
      assert Without(u, t.nextRep, o.table.nextRep) == u;
    } else {
      match v
      case ListV(vs) =>
        var w := MapValues(FromCallee, t, vs, Repeat(ty.elem, |vs|), bs);
        ReturnsFromValues(t, u, vs, Repeat(ty.elem, |vs|), bs);
      case TupleV(vs) => ReturnsFromValues(t, u, vs, ty.elems, bs);
      case RecordV(fs) => ReturnsFromFields(t, u, fs, ty.fields, bs);
      case VariantV(n, p) => ReturnsFromOption(t, u, p, FindCase(ty.cases, n).value.ty, bs);
      case OptionV(p) => ReturnsFromOption(t, u, p, Some(ty.some), bs);
      case ResultV(ok, p) => ReturnsFromOption(t, u, p, if ok then ty.ok else ty.err, bs);
      case ResourceV(r) => assert Without(u, t.nextRep, o.table.nextRep) == Remove(u, t.nextRep);
    }
  }

  lemma {:induction false} ReturnsFromOption(t: Table, u: Table, v: Option<Val>, ty: Option<Type>, bs: seq<Binding>)
    requires var o := MapOption(FromCallee, t, v, ty, bs); o.result.Ok? && Holds(u, t.nextRep, o.table)
    ensures var o := MapOption(FromCallee, t, v, ty, bs);
            MapOption(ToCallee, u, o.result.value, ty, bs) == Outcome(Ok(v), Without(u, t.nextRep, o.table.nextRep))
    decreases v
  {
    if v.Some? {
      ReturnsFrom(t, u, v.value, ty.value, bs);
    } else {
      assert Without(u, t.nextRep, t.nextRep) == u;
    }
  }

  lemma {:induction false} ReturnsFromValues(t: Table, u: Table, vs: seq<Val>, tys: seq<Type>, bs: seq<Binding>)
    requires |vs| == |tys|
    requires var o := MapValues(FromCallee, t, vs, tys, bs); o.result.Ok? && Holds(u, t.nextRep, o.table)
    ensures var o := MapValues(FromCallee, t, vs, tys, bs);
            |o.result.value| == |tys|
            && MapValues(ToCallee, u, o.result.value, tys, bs)
               == Outcome(Ok(vs), Without(u, t.nextRep, o.table.nextRep))
    decreases vs
  {
    if vs == [] {
      assert Without(u, t.nextRep, t.nextRep) == u;
    } else {
      var head := MapValue(FromCallee, t, vs[0], tys[0], bs);
      var rest := MapValues(FromCallee, head.table, vs[1..], tys[1..], bs);
      MapValueMoves(FromCallee, t, vs[0], tys[0], bs);
      MapValuesMoves(FromCallee, head.table, vs[1..], tys[1..], bs);
      ReturnsFrom(t, u, vs[0], tys[0], bs);
      var u' := Without(u, t.nextRep, head.table.nextRep);
      ReturnsFromValues(head.table, u', vs[1..], tys[1..], bs);
      WithoutSplit(u, t.nextRep, head.table.nextRep, rest.table.nextRep);
      var ws := [head.result.value] + rest.result.value;
      assert ws[0] == head.result.value && ws[1..] == rest.result.value;
      assert [vs[0]] + vs[1..] == vs;
    }
  }

  lemma {:induction false} ReturnsFromFields(t: Table, u: Table, fs: seq<FieldV>, fts: seq<FieldT>, bs: seq<Binding>)
    requires |fs| == |fts|
    requires var o := MapFields(FromCallee, t, fs, fts, bs); o.result.Ok? && Holds(u, t.nextRep, o.table)
    ensures var o := MapFields(FromCallee, t, fs, fts, bs);
            |o.result.value| == |fts|
            && MapFields(ToCallee, u, o.result.value, fts, bs)
               == Outcome(Ok(fs), Without(u, t.nextRep, o.table.nextRep))
    decreases fs
  {
    if fs == [] {
      assert Without(u, t.nextRep, t.nextRep) == u;
    } else {
      var head := MapValue(FromCallee, t, fs[0].val, fts[0].ty, bs);
      var rest := MapFields(FromCallee, head.table, fs[1..], fts[1..], bs);
      MapValueMoves(FromCallee, t, fs[0].val, fts[0].ty, bs);
      MapFieldsMoves(FromCallee, head.table, fs[1..], fts[1..], bs);
      ReturnsFrom(t, u, fs[0].val, fts[0].ty, bs);
      var u' := Without(u, t.nextRep, head.table.nextRep);
      ReturnsFromFields(head.table, u', fs[1..], fts[1..], bs);
      WithoutSplit(u, t.nextRep, head.table.nextRep, rest.table.nextRep);
      var ws := [FieldV(fs[0].name, head.result.value)] + rest.result.value;
      assert ws[0] == FieldV(fs[0].name, head.result.value) && ws[1..] == rest.result.value;
      assert [fs[0]] + fs[1..] == fs;
    }
  }

  /**
    The round trip: whatever value a callee returned, handing the translated value back at the
    same type recovers the callee's value and the resource map; only `nextRep` has advanced.
   */
  lemma RoundTrip(t: Table, v: Val, ty: Type, bs: seq<Binding>)
    requires Valid(t)
    requires MapValue(FromCallee, t, v, ty, bs).result.Ok?
    ensures var o := MapValue(FromCallee, t, v, ty, bs);
            MapValue(ToCallee, o.table, o.result.value, ty, bs)
            == Outcome(Ok(v), t.(nextRep := o.table.nextRep))
  {
    var o := MapValue(FromCallee, t, v, ty, bs);
    MapValueMoves(FromCallee, t, v, ty, bs);
    ReturnsFrom(t, o.table, v, ty, bs);
    assert Without(o.table, t.nextRep, o.table.nextRep) == t.(nextRep := o.table.nextRep);
  }

  // ---- Linearity over runs ----

  /** Everything that can happen to the table between two points of a run. */
  datatype Op =
    | AllocateType(key: Key)
    | Translate(dir: Direction, value: Val, ty: Type, bindings: seq<Binding>)
    | DropOf(rep: nat, typeId: nat)

  function Apply(t: Table, op: Op): Table {
    match op
    case AllocateType(key) => (match TypeIdFor(t, key) case None => t case Some((t', _)) => t')
    case Translate(dir, v, ty, bs) => MapValue(dir, t, v, ty, bs).table
    case DropOf(rep, typeId) => DropHandle(t, rep, typeId).0
  }

  function Run(t: Table, ops: seq<Op>): Table
    decreases ops
  {
    if ops == [] then t else Run(Apply(t, ops[0]), ops[1..])
  }

  lemma MovesEvolves(dir: Direction, t: Table, t': Table)
    requires Valid(t) && Moves(dir, t, t')
    ensures Valid(t') && Evolves(t, t')
  {}

  lemma TypeIdEvolves(t: Table, key: Key)
    requires Valid(t)
    ensures Valid(Apply(t, AllocateType(key))) && Evolves(t, Apply(t, AllocateType(key)))
  {}

  lemma ApplyEvolves(t: Table, op: Op)
    requires Valid(t)
    ensures Valid(Apply(t, op)) && Evolves(t, Apply(t, op))
  {
    match op
    case AllocateType(key) => TypeIdEvolves(t, key);
    case Translate(dir, v, ty, bs) =>
      MapValueMoves(dir, t, v, ty, bs);
      MovesEvolves(dir, t, Apply(t, op));
    case DropOf(rep, typeId) => MovesEvolves(ToCallee, t, Apply(t, op));
  }

  /** Over every run the counters only grow, type ids stay distinct and no rep is used twice. */
  lemma {:induction false} RunEvolves(t: Table, ops: seq<Op>)
    requires Valid(t)
    ensures Valid(Run(t, ops)) && Evolves(t, Run(t, ops))
    decreases ops
  {
    if ops != [] {
      ApplyEvolves(t, ops[0]);
      RunEvolves(Apply(t, ops[0]), ops[1..]);
      EvolvesTransitive(t, Apply(t, ops[0]), Run(t, ops));
    }
  }

  lemma {:induction false} RunSplit(t: Table, a: seq<Op>, b: seq<Op>)
    ensures Run(t, a + b) == Run(Run(t, a), b)
    decreases a
  {
    if a == [] {
      assert a + b == b;
    } else {
      assert (a + b)[0] == a[0] && (a + b)[1..] == a[1..] + b;
      RunSplit(Apply(t, a[0]), a[1..], b);
    }
  }

  /**
    A parked resource leaves the table at most once: if rep was handed out before the middle of
    the run and is absent in the middle, it is absent at the end; if it is still present at the
    end, it stood for the same stored resource throughout.
   */
  lemma LeavesAtMostOnce(before: seq<Op>, during: seq<Op>, after: seq<Op>, rep: nat)
    ensures var t0 := Run(EMPTY_TABLE, before);
            var t1 := Run(EMPTY_TABLE, before + during);
            var t2 := Run(EMPTY_TABLE, before + during + after);
            && (rep in t0.resources && rep !in t1.resources ==> rep !in t2.resources)
            && (rep in t0.resources && rep in t2.resources ==>
                  rep in t1.resources && t0.resources[rep] == t1.resources[rep] == t2.resources[rep])
  {
    var t0, t1 := Run(EMPTY_TABLE, before), Run(EMPTY_TABLE, before + during);
    RunSplit(EMPTY_TABLE, before, during);
    RunSplit(EMPTY_TABLE, before + during, after);
    RunEvolves(EMPTY_TABLE, before);
    RunEvolves(t0, during);
    RunEvolves(t1, after);
  }

  /** A handle that was dropped is gone for the rest of the run, whatever type id it was dropped with. */
  lemma DroppedForGood(before: seq<Op>, after: seq<Op>, rep: nat, typeId: nat)
    requires rep < Run(EMPTY_TABLE, before).nextRep
    ensures rep !in Run(EMPTY_TABLE, before + [DropOf(rep, typeId)] + after).resources
  {
    var t, drop := Run(EMPTY_TABLE, before), DropOf(rep, typeId);
    RunSplit(EMPTY_TABLE, before, [drop]);
    RunSplit(EMPTY_TABLE, before + [drop], after);
    assert [drop][1..] == [];
    assert Run(t, [drop]) == Apply(t, drop);
    RunEvolves(EMPTY_TABLE, before);
    ApplyEvolves(t, drop);
    RunEvolves(Apply(t, drop), after);
  }

  /** Distinct keys are given distinct type ids, and a key keeps its id for the rest of the run. */
  lemma TypeIdsDistinct(before: seq<Op>, after: seq<Op>, k: Key, l: Key)
    requires k != l
    ensures var t0 := Run(EMPTY_TABLE, before);
            var t1 := Run(EMPTY_TABLE, before + after);
            && (k in t0.types ==> k in t1.types && t1.types[k] == t0.types[k])
            && (k in t1.types && l in t1.types ==> t1.types[k] != t1.types[l])
  {
    RunSplit(EMPTY_TABLE, before, after);
    RunEvolves(EMPTY_TABLE, before);
    RunEvolves(Run(EMPTY_TABLE, before), after);
  }

  /** Host handles that occur at resource positions of a value. */
  predicate Mentions(v: Val, ty: Type, h: ResourceAny)
    decreases v
  {
    match ty
    case ListT(e) => v.ListV? && exists i | 0 <= i < |v.elems| :: Mentions(v.elems[i], e, h)
    case TupleT(tys) => v.TupleV? && |tys| == |v.elems| && exists i | 0 <= i < |tys| :: Mentions(v.elems[i], tys[i], h)
    case RecordT(fts) =>
      v.RecordV? && |fts| == |v.fields| && exists i | 0 <= i < |fts| :: Mentions(v.fields[i].val, fts[i].ty, h)
    case VariantT(cs) =>
      && v.VariantV? && v.payload.Some? && FindCase(cs, v.name).Some? && FindCase(cs, v.name).value.ty.Some?
      && Mentions(v.payload.value, FindCase(cs, v.name).value.ty.value, h)
    case OptionT(e) => v.OptionV? && v.payload.Some? && Mentions(v.payload.value, e, h)
    case ResultT(ok, err) =>
      var item := if v.ResultV? && v.isOk then ok else err;
      v.ResultV? && v.payload.Some? && item.Some? && Mentions(v.payload.value, item.value, h)
    case OwnT(r) => v == ResourceV(h)
    case BorrowT(r) => v == ResourceV(h)
    case _ => false
  }

  /** A handle minted by a translation is backed by an entry with the handle's own type id. */
  predicate Backed(lo: nat, t: Table, h: ResourceAny) {
    h.Host? && lo <= h.rep < t.nextRep && h.rep in t.resources && t.resources[h.rep].typeId == h.typeId
  }

  lemma {:induction false} MintedBacked(t: Table, v: Val, ty: Type, bs: seq<Binding>, h: ResourceAny)
    requires MapValue(FromCallee, t, v, ty, bs).result.Ok?
    requires Mentions(MapValue(FromCallee, t, v, ty, bs).result.value, ty, h)
    ensures Backed(t.nextRep, MapValue(FromCallee, t, v, ty, bs).table, h)
    decreases v
  {
    var w := MapValue(FromCallee, t, v, ty, bs).result.value;
    match v
    case ListV(vs) => MintedBackedValues(t, vs, Repeat(ty.elem, |vs|), bs, h);
    case TupleV(vs) => MintedBackedValues(t, vs, ty.elems, bs, h);
    case RecordV(fs) => MintedBackedFields(t, fs, ty.fields, bs, h);
    case VariantV(n, p) => MintedBacked(t, p.value, FindCase(ty.cases, n).value.ty.value, bs, h);
    case OptionV(p) => MintedBacked(t, p.value, ty.some, bs, h);
    case ResultV(ok, p) => MintedBacked(t, p.value, (if ok then ty.ok else ty.err).value, bs, h);
    case _ =>
  }

  lemma {:induction false} MintedBackedValues(t: Table, vs: seq<Val>, tys: seq<Type>, bs: seq<Binding>, h: ResourceAny)
    requires |vs| == |tys|
    requires var o := MapValues(FromCallee, t, vs, tys, bs);
             o.result.Ok? && (|o.result.value| == |tys| ==>
               exists i | 0 <= i < |tys| :: Mentions(o.result.value[i], tys[i], h))
    ensures |MapValues(FromCallee, t, vs, tys, bs).result.value| == |tys|
    ensures Backed(t.nextRep, MapValues(FromCallee, t, vs, tys, bs).table, h)
    decreases vs
  {
    var o := MapValues(FromCallee, t, vs, tys, bs);
    MapValuesLength(FromCallee, t, vs, tys, bs);
    var i :| 0 <= i < |tys| && Mentions(o.result.value[i], tys[i], h);
    var head := MapValue(FromCallee, t, vs[0], tys[0], bs);
    var rest := MapValues(FromCallee, head.table, vs[1..], tys[1..], bs);
    MapValueMoves(FromCallee, t, vs[0], tys[0], bs);
    MapValuesMoves(FromCallee, head.table, vs[1..], tys[1..], bs);
    if i == 0 {
      MintedBacked(t, vs[0], tys[0], bs, h);
    } else {
      assert rest.result.value[i - 1] == o.result.value[i] && tys[1..][i - 1] == tys[i];
      MintedBackedValues(head.table, vs[1..], tys[1..], bs, h);
    }
  }

  lemma {:induction false} MapValuesLength(dir: Direction, t: Table, vs: seq<Val>, tys: seq<Type>, bs: seq<Binding>)
    requires |vs| == |tys|
    ensures var o := MapValues(dir, t, vs, tys, bs); o.result.Ok? ==> |o.result.value| == |vs|
    decreases vs
  {
    if vs != [] {
      MapValuesLength(dir, MapValue(dir, t, vs[0], tys[0], bs).table, vs[1..], tys[1..], bs);
    }
  }

  lemma {:induction false} MapFieldsLength(dir: Direction, t: Table, fs: seq<FieldV>, fts: seq<FieldT>,
                                           bs: seq<Binding>)
    requires |fs| == |fts|
    ensures var o := MapFields(dir, t, fs, fts, bs); o.result.Ok? ==> |o.result.value| == |fs|
    decreases fs
  {
    if fs != [] {
      MapFieldsLength(dir, MapValue(dir, t, fs[0].val, fts[0].ty, bs).table, fs[1..], fts[1..], bs);
    }
  }

  lemma {:induction false} MintedBackedFields(t: Table, fs: seq<FieldV>, fts: seq<FieldT>, bs: seq<Binding>,
                                              h: ResourceAny)
    requires |fs| == |fts|
    requires var o := MapFields(FromCallee, t, fs, fts, bs);
             o.result.Ok? && (|o.result.value| == |fts| ==>
               exists i | 0 <= i < |fts| :: Mentions(o.result.value[i].val, fts[i].ty, h))
    ensures Backed(t.nextRep, MapFields(FromCallee, t, fs, fts, bs).table, h)
    decreases fs
  {
    var o := MapFields(FromCallee, t, fs, fts, bs);
    MapFieldsLength(FromCallee, t, fs, fts, bs);
    var i :| 0 <= i < |fts| && Mentions(o.result.value[i].val, fts[i].ty, h);
    var head := MapValue(FromCallee, t, fs[0].val, fts[0].ty, bs);
    var rest := MapFields(FromCallee, head.table, fs[1..], fts[1..], bs);
    MapValueMoves(FromCallee, t, fs[0].val, fts[0].ty, bs);
    MapFieldsMoves(FromCallee, head.table, fs[1..], fts[1..], bs);
    if i == 0 {
      MintedBacked(t, fs[0].val, fts[0].ty, bs, h);
    } else {
      assert rest.result.value[i - 1] == o.result.value[i] && fts[1..][i - 1] == fts[i];
      MintedBackedFields(head.table, fs[1..], fts[1..], bs, h);
    }
  }

  /**
    The type check in the drop callback never fails for a handle the bridge minted: at any later
    point of any run, dropping it either releases the parked resource or finds it already gone.
   */
  lemma DropTypeCheckNeverFails(before: seq<Op>, v: Val, ty: Type, bs: seq<Binding>, after: seq<Op>, h: ResourceAny)
    requires var o := MapValue(FromCallee, Run(EMPTY_TABLE, before), v, ty, bs);
             o.result.Ok? && Mentions(o.result.value, ty, h)
    ensures h.Host?
    ensures var t := Run(EMPTY_TABLE, before + [Translate(FromCallee, v, ty, bs)] + after);
            DropHandle(t, h.rep, h.typeId).1 != Err(WrongHostType)
  {
    var t0 := Run(EMPTY_TABLE, before);
    var op := Translate(FromCallee, v, ty, bs);
    RunEvolves(EMPTY_TABLE, before);
    MintedBacked(t0, v, ty, bs, h);
    RunSplit(EMPTY_TABLE, before, [op]);
    RunSplit(EMPTY_TABLE, before + [op], after);
    assert [op][1..] == [];
    assert Run(t0, [op]) == Apply(t0, op) by {
      assert Run(t0, [op]) == Run(Apply(t0, op), []);
    }
    ApplyEvolves(t0, op);
    RunEvolves(Apply(t0, op), after);
  }
}
