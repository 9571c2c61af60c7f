/**
  The per-store table that backs bridged wasm dependency resources: a map from
  (dependency, interface, resource) keys to host type ids, and a map from reps to the
  guest resource parked under that rep.  Both counters are 32-bit and checked.

  `Table` is the value of the table and the functions on it specify the class
  `ResourceState`, which updates its fields in place as the runtime does.
 */
module ResourceTable {
  import opened Wrappers

  const U32_MAX: nat := 0xFFFF_FFFF

  /** Identity of a component-model resource type. */
  type ResourceType = nat

  /** A resource value: owned by a guest component, or a host-dynamic (rep, type id) pair. */
  datatype ResourceAny =
    | Guest(id: nat, ty: ResourceType)
    | Host(rep: nat, typeId: nat)

  datatype Key = Key(dependency: string, interfaceName: string, resource: string)

  datatype Stored = Stored(typeId: nat, resource: ResourceAny)

  datatype Table = Table(
    nextTypeId: nat,
    nextRep: nat,
    types: map<Key, nat>,
    resources: map<nat, Stored>)

  const EMPTY_TABLE := Table(1, 1, map[], map[])

  /** What every table operation keeps: ids handed out lie below the counters and are distinct. */
  predicate Valid(t: Table) {
    && 1 <= t.nextTypeId <= U32_MAX
    && 1 <= t.nextRep <= U32_MAX
    && (forall k | k in t.types :: 1 <= t.types[k] < t.nextTypeId)
    && (forall k, l | k in t.types && l in t.types && t.types[k] == t.types[l] :: k == l)
    && (forall rep | rep in t.resources :: 1 <= rep < t.nextRep)
  }

  /** Looks up or allocates a type id; `None` is the source's panic on exhaustion. */
  function TypeIdFor(t: Table, key: Key): Option<(Table, nat)> {
    if key in t.types then Some((t, t.types[key]))
    else if t.nextTypeId >= U32_MAX then None
    else Some((t.(nextTypeId := t.nextTypeId + 1, types := t.types[key := t.nextTypeId]), t.nextTypeId))
  }

  /** Parks a resource under the next rep; `None` when the rep counter would overflow. */
  function Insert(t: Table, typeId: nat, resource: ResourceAny): Option<(Table, nat)> {
    if t.nextRep >= U32_MAX then None
    else Some((t.(nextRep := t.nextRep + 1, resources := t.resources[t.nextRep := Stored(typeId, resource)]),
               t.nextRep))
  }

  function Remove(t: Table, rep: nat): Table {
    t.(resources := t.resources - {rep})
  }

  datatype DropError = MissingRep | WrongHostType

  /** The destructor the bridge registers for host type `typeId`: the entry leaves even if the check fails. */
  function DropHandle(t: Table, rep: nat, typeId: nat): (Table, Result<ResourceAny, DropError>) {
    if rep !in t.resources then (t, Err(MissingRep))
    else if t.resources[rep].typeId != typeId then (Remove(t, rep), Err(WrongHostType))
    else (Remove(t, rep), Ok(t.resources[rep].resource))
  }

  /**
    How a table may change over any stretch of a run.  A rep below the old counter keeps its
    entry or loses it for good; new entries appear only under new reps.
   */
  predicate Evolves(t: Table, t': Table) {
    && t.nextRep <= t'.nextRep
    && t.nextTypeId <= t'.nextTypeId
    && (forall k | k in t.types :: k in t'.types && t'.types[k] == t.types[k])
    && (forall rep | rep in t'.resources ::
          if rep < t.nextRep then rep in t.resources && t'.resources[rep] == t.resources[rep]
          else rep < t'.nextRep)
  }

  lemma EvolvesTransitive(a: Table, b: Table, c: Table)
    requires Evolves(a, b) && Evolves(b, c)
    ensures Evolves(a, c)
  {
    forall rep | rep in c.resources
      ensures if rep < a.nextRep then rep in a.resources && c.resources[rep] == a.resources[rep]
              else rep < c.nextRep
    {
      if rep < b.nextRep {
        assert rep in b.resources;
      }
    }
  }

  class ResourceState {
    var nextTypeId: nat
    var nextRep: nat
    var types: map<Key, nat>
    var resources: map<nat, Stored>

    function View(): Table
      reads this
    {
      Table(nextTypeId, nextRep, types, resources)
    }

    constructor ()
      ensures View() == EMPTY_TABLE && Valid(View())
    {
      nextTypeId, nextRep, types, resources := 1, 1, map[], map[];
    }

    method AllocateTypeId(key: Key) returns (r: Option<nat>)
      requires Valid(View())
      modifies this
      ensures Valid(View()) && Evolves(old(View()), View())
      ensures match TypeIdFor(old(View()), key)
              case None => r == None && View() == old(View())
              case Some((t, id)) => r == Some(id) && View() == t
      ensures r.Some? ==> key in types && types[key] == r.value
    {
      if key in types {
        return Some(types[key]);
      }
      if nextTypeId >= U32_MAX {
        return None;
      }
      var id := nextTypeId;
      nextTypeId := nextTypeId + 1;
      types := types[key := id];
      r := Some(id);
    }

    method InsertResource(typeId: nat, resource: ResourceAny) returns (r: Option<nat>)
      modifies this
      ensures match Insert(old(View()), typeId, resource)
              case None => r == None && View() == old(View())
              case Some((t, rep)) => r == Some(rep) && View() == t
      ensures old(Valid(View())) ==> Valid(View()) && Evolves(old(View()), View())
      ensures old(Valid(View())) && r.Some? ==> r.value !in old(resources)
    {
      if nextRep >= U32_MAX {
        return None;
      }
      var rep := nextRep;
      nextRep := nextRep + 1;
      resources := resources[rep := Stored(typeId, resource)];
      r := Some(rep);
    }

    method RemoveResource(rep: nat) returns (r: Option<Stored>)
      modifies this`resources
      ensures View() == Remove(old(View()), rep) && resources == old(resources) - {rep}
      ensures r == if rep in old(resources) then Some(old(resources)[rep]) else None
    {
      r := None;
      if rep in resources {
        r := Some(resources[rep]);
      }
      resources := resources - {rep};
    }

    method DropResource(rep: nat, typeId: nat) returns (r: Result<ResourceAny, DropError>)
      modifies this`resources
      ensures (View(), r) == DropHandle(old(View()), rep, typeId)
      ensures resources == old(resources) - {rep}
      ensures r == Err(MissingRep) <==> rep !in old(resources)
      ensures r.Ok? <==> rep in old(resources) && old(resources)[rep].typeId == typeId
      ensures r.Ok? ==> r.value == old(resources)[rep].resource
    {
      var stored := RemoveResource(rep);
      assert rep !in old(resources) ==> resources == old(resources);
      match stored
      case None => r := Err(MissingRep);
      case Some(s) =>
        r := if s.typeId != typeId then Err(WrongHostType) else Ok(s.resource);
    }
  }
}
