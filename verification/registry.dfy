/** The component registry (backend/core/registry.py): a name-to-component
    dictionary. Python dictionaries keep insertion order, so the model keeps
    the names in a list next to the map. */
module Registry {
  import opened Payloads
  import Seqs

  /** What the registry stores. Lookups in the source only ever ask whether a stored
      component is an instance of some class, so a component is modelled by its class name. */
  datatype Component = Component(className: string)

  datatype Registry<V> = Registry(names: seq<string>, entries: map<string, V>)

  /** The name list holds each key of the map exactly once. */
  predicate Valid<V>(r: Registry<V>)
  {
    Seqs.Distinct(r.names) && r.entries.Keys == (set n | n in r.names)
  }

  function NewRegistry<V>(): (r: Registry<V>)
    ensures Valid(r) && ComponentCount(r) == 0
  {
    Registry([], map[])
  }

  /** `register`: a new name goes to the end; a known name keeps its place and its value
      is overwritten. */
  function Register<V>(r: Registry<V>, name: string, c: V): (r': Registry<V>)
    requires Valid(r)
    ensures Valid(r')
    ensures Get(r', name) == Some(c)
    ensures forall n :: n != name ==> Get(r', n) == Get(r, n)
    ensures name in r.entries ==> r'.names == r.names
    ensures name !in r.entries ==> r'.names == r.names + [name]
  {
    if name in r.entries then Registry(r.names, r.entries[name := c])
    else Registry(r.names + [name], r.entries[name := c])
  }

  /** `get`: the stored component, or `None` for an unknown name. */
  function Get<V>(r: Registry<V>, name: string): Option<V>
  {
    if name in r.entries then Some(r.entries[name]) else None
  }

  /** `unregister`: true exactly when the name was there; afterwards it is not, and every
      other entry is as before. An unknown name changes nothing. */
  function Unregister<V>(r: Registry<V>, name: string): (res: (Registry<V>, bool))
    requires Valid(r)
    ensures Valid(res.0)
    ensures res.1 <==> name in r.entries
    ensures Get(res.0, name) == None
    ensures forall n :: n != name ==> Get(res.0, n) == Get(r, n)
    ensures !res.1 ==> res.0 == r
  {
    if name in r.entries then (Registry(Seqs.Without(r.names, name), r.entries - {name}), true)
    else (r, false)
  }

  /** `list_components`: the names in insertion order. */
  function ListComponents<V>(r: Registry<V>): seq<string>
  {
    r.names
  }

  /** `component_count` of `get_stats`: the size of the dictionary. */
  function ComponentCount<V>(r: Registry<V>): nat
  {
    |r.entries|
  }

  /** The two statistics agree: the count is the length of the listed names. */
  lemma CountIsListLength<V>(r: Registry<V>)
    requires Valid(r)
    ensures ComponentCount(r) == |ListComponents(r)|
  {
    Seqs.DistinctCardinality(r.names);
    assert r.entries.Keys == set n | n in r.names;
  }

  /** Overwriting a name leaves the count as it was; a new name adds one. */
  lemma RegisterCount<V>(r: Registry<V>, name: string, c: V)
    requires Valid(r)
    ensures ComponentCount(Register(r, name, c)) == ComponentCount(r) + (if name in r.entries then 0 else 1)
  {
    CountIsListLength(r);
    CountIsListLength(Register(r, name, c));
  }
}
