/** Result containers: a page of entities (EntityList), entities keyed by an
    id (EntityMap), pages grouped by a criterion value (EntityMultimap), and the
    EntityResult wrapper that holds exactly one of them. */
module Results {
  import opened Errors
  import opened Multimaps

  /** A page of items and the total the query reported, if any. */
  datatype EntityList<T> = EntityList(items: seq<T>, totalItems: Option<int>)

  /** Keyed entities, in the map's iteration order, with distinct keys. */
  datatype EntityMap<K, T> = EntityMap(items: seq<(K, T)>, totalItems: Option<int>)

  /** One page per group key, in the map's iteration order. */
  datatype EntityMultimap<K, T> = EntityMultimap(items: seq<(K, EntityList<T>)>, totalItems: Option<int>)

  /** The container an EntityResult delegates to. */
  datatype Container<K, T> =
    | ListContainer(list: EntityList<T>)
    | MapContainer(entityMap: EntityMap<K, T>)
    | MultimapContainer(multimap: EntityMultimap<K, T>)

  // ---------------------------------------------------------------------------
  // The containers
  // ---------------------------------------------------------------------------

  /** `new EntityList(items, totalItems)`: a null list is refused. */
  function NewEntityList<T>(items: Option<seq<T>>, totalItems: Option<int>): (r: Result<EntityList<T>>)
    ensures r.Err? <==> items.None?
    ensures r.Err? ==> r.failure == NullPointer
    ensures r.Ok? ==> r.value.items == items.value && r.value.totalItems == totalItems
  {
    if items.None? then Err(NullPointer) else Ok(EntityList(items.value, totalItems))
  }

  /** `new EntityMap(items, totalItems)`: a null map is refused. */
  function NewEntityMap<K, T>(items: Option<seq<(K, T)>>, totalItems: Option<int>): (r: Result<EntityMap<K, T>>)
    ensures r.Err? <==> items.None?
    ensures r.Err? ==> r.failure == NullPointer
    ensures r.Ok? ==> r.value.items == items.value && r.value.totalItems == totalItems
  {
    if items.None? then Err(NullPointer) else Ok(EntityMap(items.value, totalItems))
  }

  /** The keys of a keyed sequence. */
  function KeysOf<K, T>(items: seq<(K, T)>): (ks: seq<K>)
    ensures |ks| == |items|
    ensures forall i :: 0 <= i < |items| ==> ks[i] == items[i].0
  {
    if |items| == 0 then [] else KeysOf(items[..|items| - 1]) + [items[|items| - 1].0]
  }

  /** The values of a keyed sequence. */
  function ValuesOf<K, T>(items: seq<(K, T)>): (vs: seq<T>)
    ensures |vs| == |items|
    ensures forall i :: 0 <= i < |items| ==> vs[i] == items[i].1
  {
    if |items| == 0 then [] else ValuesOf(items[..|items| - 1]) + [items[|items| - 1].1]
  }

  /** The stream collect of the key-selector constructor, item by item: each
      item under its selected key, and an IllegalStateException at the first
      key selected twice. */
  function CollectByKey<K(==), T>(items: seq<T>, keySelector: T -> K): (r: Result<seq<(K, T)>>)
    ensures r.Ok? ==> |r.value| == |items|
    ensures r.Ok? ==> forall i :: 0 <= i < |items| ==> r.value[i] == (keySelector(items[i]), items[i])
    ensures r.Ok? ==> Distinct(KeysOf(r.value))
    ensures r.Err? ==> r.failure == IllegalState
  {
    if |items| == 0 then Ok([])
    else
      var init :- CollectByKey(items[..|items| - 1], keySelector);
      var last := items[|items| - 1];
      if keySelector(last) in KeysOf(init) then Err(IllegalState)
      else
        var r := init + [(keySelector(last), last)];
        assert KeysOf(r) == KeysOf(init) + [keySelector(last)];
        Ok(r)
  }

  /** `new EntityMap(items, keySelector, totalItems)`. */
  function NewKeyedEntityMap<K(==), T>(items: Option<seq<T>>, keySelector: T -> K, totalItems: Option<int>): (r: Result<EntityMap<K, T>>)
    ensures items.None? ==> r == Err(NullPointer)
    ensures r.Ok? ==> r.value.totalItems == totalItems
  {
    if items.None? then Err(NullPointer)
    else
      var m :- CollectByKey(items.value, keySelector);
      Ok(EntityMap(m, totalItems))
  }

  /** The key selected for each item, in order. */
  function SelectedKeys<K, T>(items: seq<T>, keySelector: T -> K): (ks: seq<K>)
    ensures |ks| == |items|
    ensures forall i :: 0 <= i < |items| ==> ks[i] == keySelector(items[i])
  {
    if |items| == 0 then [] else SelectedKeys(items[..|items| - 1], keySelector) + [keySelector(items[|items| - 1])]
  }

  /** The key-selector map holds each item under its own key, and its values
      are the items in order; it fails exactly when two items share a key. */
  lemma {:induction false} KeyedMapContents<K, T>(items: seq<T>, keySelector: T -> K)
    ensures CollectByKey(items, keySelector).Ok? <==> Distinct(SelectedKeys(items, keySelector))
    ensures CollectByKey(items, keySelector).Ok? ==> ValuesOf(CollectByKey(items, keySelector).value) == items
  {
    var keys := SelectedKeys(items, keySelector);
    var r := CollectByKey(items, keySelector);
    if r.Ok? {
      assert KeysOf(r.value) == keys;
      assert ValuesOf(r.value) == items;
    }
    if |items| > 0 && Distinct(keys) {
      var init := items[..|items| - 1];
      var initKeys := SelectedKeys(init, keySelector);
      assert keys == initKeys + [keySelector(items[|items| - 1])];
      assert Distinct(initKeys) by {
        forall i, j | 0 <= i < j < |initKeys|
          ensures initKeys[i] != initKeys[j]
        {
          assert keys[i] == initKeys[i] && keys[j] == initKeys[j];
        }
      }
      KeyedMapContents(init, keySelector);
      var ri := CollectByKey(init, keySelector);
      assert KeysOf(ri.value) == initKeys;
    }
  }

  /** `new EntityMultimap(items, totalItems)`: a null map is refused. */
  function NewEntityMultimap<K, T>(items: Option<seq<(K, EntityList<T>)>>, totalItems: Option<int>): (r: Result<EntityMultimap<K, T>>)
    ensures r.Err? <==> items.None?
    ensures r.Err? ==> r.failure == NullPointer
    ensures r.Ok? ==> r.value.items == items.value && r.value.totalItems == totalItems
  {
    if items.None? then Err(NullPointer) else Ok(EntityMultimap(items.value, totalItems))
  }

  /** What the multimap's iterator yields: the groups' pages, concatenated. */
  function Concat<K, T>(groups: seq<(K, EntityList<T>)>): (r: seq<T>)
  {
    if |groups| == 0 then [] else Concat(groups[..|groups| - 1]) + groups[|groups| - 1].1.items
  }

  /** The number of items over all groups. */
  function SumSizes<K, T>(groups: seq<(K, EntityList<T>)>): nat
  {
    if |groups| == 0 then 0 else SumSizes(groups[..|groups| - 1]) + |groups[|groups| - 1].1.items|
  }

  /** Iterating a multimap yields as many items as its groups hold together,
      and every group's items appear in it. */
  lemma {:induction false} ConcatSize<K, T>(groups: seq<(K, EntityList<T>)>)
    ensures |Concat(groups)| == SumSizes(groups)
    ensures forall g, x :: g in groups && x in g.1.items ==> x in Concat(groups)
  {
    if |groups| > 0 {
      var init := groups[..|groups| - 1];
      ConcatSize(init);
      forall g, x | g in groups && x in g.1.items
        ensures x in Concat(groups)
      {
        if g != groups[|groups| - 1] {
          var i :| 0 <= i < |groups| && groups[i] == g;
          assert init[i] == g;
        }
      }
    }
  }

  /** The items a container's iterator yields. */
  function Elements<K, T>(c: Container<K, T>): seq<T>
  {
    match c
    case ListContainer(l) => l.items
    case MapContainer(m) => ValuesOf(m.items)
    case MultimapContainer(mm) => Concat(mm.items)
  }

  /** The total a container reports: the one it was given, never a count of
      its items. */
  function TotalOf<K, T>(c: Container<K, T>): Option<int>
  {
    match c
    case ListContainer(l) => l.totalItems
    case MapContainer(m) => m.totalItems
    case MultimapContainer(mm) => mm.totalItems
  }

  /** A multimap's total is the one supplied, whatever its groups report:
      it is not the sum of the groups' totals nor the number of their items. */
  lemma MultimapTotalIndependent<K, T>(items: seq<(K, EntityList<T>)>, total: Option<int>, other: seq<(K, EntityList<T>)>)
    ensures TotalOf(MultimapContainer(EntityMultimap(items, total))) == total
    ensures TotalOf(MultimapContainer(EntityMultimap(items, total))) == TotalOf(MultimapContainer(EntityMultimap(other, total)))
  {
  }

  /** The lazy choice of `getCurrentEntityContainer`: the list, else the map,
      else the multimap. */
  function Select<K, T>(list: Option<EntityList<T>>, entityMap: Option<EntityMap<K, T>>, multimap: Option<EntityMultimap<K, T>>): (c: Option<Container<K, T>>)
    ensures c.None? <==> list.None? && entityMap.None? && multimap.None?
    ensures list.Some? ==> c == Some(ListContainer(list.value))
    ensures list.None? && entityMap.Some? ==> c == Some(MapContainer(entityMap.value))
    ensures list.None? && entityMap.None? && multimap.Some? ==> c == Some(MultimapContainer(multimap.value))
  {
    if list.Some? then Some(ListContainer(list.value))
    else if entityMap.Some? then Some(MapContainer(entityMap.value))
    else if multimap.Some? then Some(MultimapContainer(multimap.value))
    else None
  }

  // ---------------------------------------------------------------------------
  // EntityResult
  // ---------------------------------------------------------------------------

  /** The wrapper that query results travel in. `current` is the container it
      delegates to, filled lazily when only the three fields were set. */
  class EntityResult<K(==), T(==)> {
    var list: Option<EntityList<T>>
    var entityMap: Option<EntityMap<K, T>>
    var multimap: Option<EntityMultimap<K, T>>
    var current: Option<Container<K, T>>

    /** Every public constructor sets exactly one field, and the current
        container to it. */
    predicate Valid()
      reads this
    {
      current.Some? ==> current == Select(list, entityMap, multimap)
    }

    constructor OfList(l: EntityList<T>)
      ensures list == Some(l) && entityMap.None? && multimap.None?
      ensures current == Some(ListContainer(l)) && Valid()
    {
      list := Some(l);
      entityMap := None;
      multimap := None;
      current := Some(ListContainer(l));
    }

    constructor OfMap(m: EntityMap<K, T>)
      ensures list.None? && entityMap == Some(m) && multimap.None?
      ensures current == Some(MapContainer(m)) && Valid()
    {
      list := None;
      entityMap := Some(m);
      multimap := None;
      current := Some(MapContainer(m));
    }

    constructor OfMultimap(mm: EntityMultimap<K, T>)
      ensures list.None? && entityMap.None? && multimap == Some(mm)
      ensures current == Some(MultimapContainer(mm)) && Valid()
    {
      list := None;
      entityMap := None;
      multimap := Some(mm);
      current := Some(MultimapContainer(mm));
    }

    /** The state deserialisation leaves behind: the fields that were present,
        and no current container yet. */
    constructor Deserialized(l: Option<EntityList<T>>, m: Option<EntityMap<K, T>>, mm: Option<EntityMultimap<K, T>>)
      ensures list == l && entityMap == m && multimap == mm && current.None? && Valid()
    {
      list := l;
      entityMap := m;
      multimap := mm;
      current := None;
    }

    /** `getCurrentEntityContainer`: chosen once, never changed afterwards. */
    method CurrentContainer() returns (c: Option<Container<K, T>>)
      requires Valid()
      modifies this
      ensures Valid()
      ensures old(current).Some? ==> current == old(current)
      ensures old(current).None? ==> current == Select(list, entityMap, multimap)
      ensures list == old(list) && entityMap == old(entityMap) && multimap == old(multimap)
      ensures c == current && c == Select(list, entityMap, multimap)
    {
      if current.None? {
        current := Select(list, entityMap, multimap);
      }
      c := current;
    }

    /** `iterator()`: the current container's items; with no container at
        all the call dereferences null. */
    method Iterate() returns (r: Result<seq<T>>)
      requires Valid()
      modifies this
      ensures Valid() && list == old(list) && entityMap == old(entityMap) && multimap == old(multimap)
      ensures var c := Select(list, entityMap, multimap);
        r == (if c.None? then Err(NullPointer) else Ok(Elements(c.value)))
    {
      var c := CurrentContainer();
      if c.None? {
        return Err(NullPointer);
      }
      return Ok(Elements(c.value));
    }

    /** `getTotalItems`: the current container's total. */
    method TotalItems() returns (r: Result<Option<int>>)
      requires Valid()
      modifies this
      ensures Valid() && list == old(list) && entityMap == old(entityMap) && multimap == old(multimap)
      ensures var c := Select(list, entityMap, multimap);
        r == (if c.None? then Err(NullPointer) else Ok(TotalOf(c.value)))
    {
      var c := CurrentContainer();
      if c.None? {
        return Err(NullPointer);
      }
      return Ok(TotalOf(c.value));
    }

    /** `isEmpty`: the iterator has no first item. */
    method IsEmpty() returns (r: Result<bool>)
      requires Valid()
      modifies this
      ensures Valid() && list == old(list) && entityMap == old(entityMap) && multimap == old(multimap)
      ensures var c := Select(list, entityMap, multimap);
        r == (if c.None? then Err(NullPointer) else Ok(|Elements(c.value)| == 0))
    {
      var items := Iterate();
      if items.Err? {
        return Err(items.failure);
      }
      return Ok(|items.value| == 0);
    }

    /** `getOne`: null on an empty result, otherwise the first item. */
    method GetOne() returns (r: Result<Option<T>>)
      requires Valid()
      modifies this
      ensures Valid() && list == old(list) && entityMap == old(entityMap) && multimap == old(multimap)
      ensures var c := Select(list, entityMap, multimap);
        r == (if c.None? then Err(NullPointer)
              else if |Elements(c.value)| == 0 then Ok(None)
              else Ok(Some(Elements(c.value)[0])))
    {
      var items := Iterate();
      if items.Err? {
        return Err(items.failure);
      }
      if |items.value| == 0 {
        return Ok(None);
      }
      return Ok(Some(items.value[0]));
    }

    /** `asList`: the list's own items when the list is set, otherwise a copy
        of what the iterator yields. */
    method AsList() returns (r: Result<seq<T>>)
      requires Valid()
      modifies this
      ensures Valid() && list == old(list) && entityMap == old(entityMap) && multimap == old(multimap)
      ensures list.Some? ==> r == Ok(list.value.items)
      ensures var c := Select(list, entityMap, multimap);
        r == (if c.None? then Err(NullPointer) else Ok(Elements(c.value)))
    {
      if list.Some? {
        return Ok(list.value.items);
      }
      r := Iterate();
    }
  }

  /** `new EntityResult(items, totalItems)`: a page wrapped in a list; a null
      list is refused. */
  method NewEntityResult<K(==), T(==)>(items: Option<seq<T>>, totalItems: Option<int>) returns (r: Result<EntityResult<K, T>>)
    ensures r.Err? <==> items.None?
    ensures r.Err? ==> r.failure == NullPointer
    ensures r.Ok? ==> fresh(r.value) && r.value.Valid()
    ensures r.Ok? ==> r.value.list == Some(EntityList(items.value, totalItems))
    ensures r.Ok? ==> r.value.entityMap.None? && r.value.multimap.None?
  {
    var l := NewEntityList(items, totalItems);
    if l.Err? {
      return Err(l.failure);
    }
    var e := new EntityResult.OfList(l.value);
    return Ok(e);
  }

  /** `new EntityResult(list)`: the `checkNotNull` refuses a null list with a
      NullPointerException; otherwise the result delegates to the list. */
  method NewListResult<K(==), T(==)>(l: Option<EntityList<T>>) returns (r: Result<EntityResult<K, T>>)
    ensures r.Err? <==> l.None?
    ensures r.Err? ==> r.failure == NullPointer
    ensures r.Ok? ==> fresh(r.value) && r.value.Valid()
    ensures r.Ok? ==> r.value.list == l && r.value.entityMap.None? && r.value.multimap.None?
    ensures r.Ok? ==> r.value.current == Some(ListContainer(l.value))
  {
    if l.None? {
      return Err(NullPointer);
    }
    var e := new EntityResult.OfList(l.value);
    return Ok(e);
  }

  /** `new EntityResult(map)`: a null map is refused the same way. */
  method NewMapResult<K(==), T(==)>(m: Option<EntityMap<K, T>>) returns (r: Result<EntityResult<K, T>>)
    ensures r.Err? <==> m.None?
    ensures r.Err? ==> r.failure == NullPointer
    ensures r.Ok? ==> fresh(r.value) && r.value.Valid()
    ensures r.Ok? ==> r.value.list.None? && r.value.entityMap == m && r.value.multimap.None?
    ensures r.Ok? ==> r.value.current == Some(MapContainer(m.value))
  {
    if m.None? {
      return Err(NullPointer);
    }
    var e := new EntityResult.OfMap(m.value);
    return Ok(e);
  }

  /** `new EntityResult(multimap)`: a null multimap is refused the same way. */
  method NewMultimapResult<K(==), T(==)>(mm: Option<EntityMultimap<K, T>>) returns (r: Result<EntityResult<K, T>>)
    ensures r.Err? <==> mm.None?
    ensures r.Err? ==> r.failure == NullPointer
    ensures r.Ok? ==> fresh(r.value) && r.value.Valid()
    ensures r.Ok? ==> r.value.list.None? && r.value.entityMap.None? && r.value.multimap == mm
    ensures r.Ok? ==> r.value.current == Some(MultimapContainer(mm.value))
  {
    if mm.None? {
      return Err(NullPointer);
    }
    var e := new EntityResult.OfMultimap(mm.value);
    return Ok(e);
  }
}
