/** Resource mappings: their indexes (pkg/utils/utils.go) and the merge of a primary with a secondary
    list (pkg/mappings/merger.go). Network and storage mappings differ only in what they map to, so
    both merges are this one. */
module Mappings {
  import opened Wrappers

  datatype Source = Source(id: Option<string>, name: Option<string>)

  datatype Item<T> = Item(source: Source, target: T)

  // ---------------------------------------------------------------------------------------------
  // Looking an ID up in a list

  function FirstByID<T>(items: seq<Item<T>>, id: string): Option<Item<T>> {
    if items == [] then None
    else if items[0].source.id == Some(id) then Some(items[0])
    else FirstByID(items[1..], id)
  }

  function LastByID<T>(items: seq<Item<T>>, id: string): Option<Item<T>> {
    if items == [] then None
    else if items[|items| - 1].source.id == Some(id) then Some(items[|items| - 1])
    else LastByID(items[..|items| - 1], id)
  }

  function LastByName<T>(items: seq<Item<T>>, name: string): Option<Item<T>> {
    if items == [] then None
    else if items[|items| - 1].source.name == Some(name) then Some(items[|items| - 1])
    else LastByName(items[..|items| - 1], name)
  }

  ghost function IDs<T(!new)>(items: seq<Item<T>>): set<string> {
    set it | it in items && it.source.id.Some? :: it.source.id.value
  }

  ghost function Names<T(!new)>(items: seq<Item<T>>): set<string> {
    set it | it in items && it.source.name.Some? :: it.source.name.value
  }

  lemma {:induction false} FirstOfConcat<T(!new)>(a: seq<Item<T>>, b: seq<Item<T>>, id: string)
    ensures FirstByID(a + b, id) == if FirstByID(a, id).Some? then FirstByID(a, id) else FirstByID(b, id)
  {
    if a == [] {
      assert a + b == b;
    } else {
      assert (a + b)[1..] == a[1..] + b;
      FirstOfConcat(a[1..], b, id);
    }
  }

  lemma {:induction false} LastOfConcat<T(!new)>(a: seq<Item<T>>, b: seq<Item<T>>, id: string)
    ensures LastByID(a + b, id) == if LastByID(b, id).Some? then LastByID(b, id) else LastByID(a, id)
  {
    if b == [] {
      assert a + b == a;
    } else {
      assert (a + b)[..|a + b| - 1] == a + b[..|b| - 1];
      LastOfConcat(a, b[..|b| - 1], id);
    }
  }

  /** When one item only has the ID, every lookup finds it. */
  lemma {:induction false} FirstOfUnique<T(!new)>(items: seq<Item<T>>, id: string, it: Item<T>)
    requires it in items && it.source.id == Some(id)
    requires forall o | o in items && o.source.id == Some(id) :: o == it
    ensures FirstByID(items, id) == Some(it)
  {
    if items[0].source.id != Some(id) {
      assert forall o | o in items[1..] :: o in items;
      FirstOfUnique(items[1..], id, it);
    } else {
      assert items[0] in items;
    }
  }

  lemma {:induction false} LastOfUnique<T(!new)>(items: seq<Item<T>>, id: string, it: Item<T>)
    requires it in items && it.source.id == Some(id)
    requires forall o | o in items && o.source.id == Some(id) :: o == it
    ensures LastByID(items, id) == Some(it)
  {
    var n := |items| - 1;
    if items[n].source.id != Some(id) {
      assert items == items[..n] + [items[n]];
      LastOfUnique(items[..n], id, it);
    } else {
      assert items[n] in items;
    }
  }

  lemma {:induction false} FirstFinds<T(!new)>(items: seq<Item<T>>, id: string)
    ensures FirstByID(items, id).Some? <==> id in IDs(items)
    ensures FirstByID(items, id).Some? ==> FirstByID(items, id).value in items
                                           && FirstByID(items, id).value.source.id == Some(id)
  {
    if items != [] {
      FirstFinds(items[1..], id);
      assert items == [items[0]] + items[1..];
    }
  }

  lemma {:induction false} LastFinds<T(!new)>(items: seq<Item<T>>, id: string)
    ensures LastByID(items, id).Some? <==> id in IDs(items)
    ensures LastByID(items, id).Some? ==> LastByID(items, id).value in items
                                          && LastByID(items, id).value.source.id == Some(id)
  {
    if items != [] {
      LastFinds(items[..|items| - 1], id);
      assert items == items[..|items| - 1] + [items[|items| - 1]];
    }
  }

  // ---------------------------------------------------------------------------------------------
  // The two indexes

  /** Later items replace earlier ones. */
  function IndexByID<T>(items: seq<Item<T>>): map<string, Item<T>> {
    if items == [] then map[]
    else
      var it := items[|items| - 1];
      var before := IndexByID(items[..|items| - 1]);
      if it.source.id.Some? then before[it.source.id.value := it] else before
  }

  function IndexByName<T>(items: seq<Item<T>>): map<string, Item<T>> {
    if items == [] then map[]
    else
      var it := items[|items| - 1];
      var before := IndexByName(items[..|items| - 1]);
      if it.source.name.Some? then before[it.source.name.value := it] else before
  }

  lemma {:induction false} IndexByIDIsLast<T(!new)>(items: seq<Item<T>>, id: string)
    ensures id in IndexByID(items) <==> LastByID(items, id).Some?
    ensures id in IndexByID(items) ==> IndexByID(items)[id] == LastByID(items, id).value
  {
    if items != [] {
      IndexByIDIsLast(items[..|items| - 1], id);
    }
  }

  lemma {:induction false} IndexByNameIsLast<T(!new)>(items: seq<Item<T>>, name: string)
    ensures name in IndexByName(items) <==> LastByName(items, name).Some?
    ensures name in IndexByName(items) ==> IndexByName(items)[name] == LastByName(items, name).value
    ensures name in IndexByName(items) ==> IndexByName(items)[name] in items
                                           && IndexByName(items)[name].source.name == Some(name)
  {
    if items != [] {
      IndexByNameIsLast(items[..|items| - 1], name);
    }
  }

  method IndexByIDAndName<T>(items: seq<Item<T>>) returns (byID: map<string, Item<T>>, byName: map<string, Item<T>>)
    ensures byID == IndexByID(items) && byName == IndexByName(items)
  {
    byID, byName := map[], map[];
    for i := 0 to |items|
      invariant byID == IndexByID(items[..i]) && byName == IndexByName(items[..i])
    {
      var item := items[i];
      assert items[..i + 1][..i] == items[..i];
      if item.source.id.Some? {
        byID := byID[item.source.id.value := item];
      }
      if item.source.name.Some? {
        byName := byName[item.source.name.value := item];
      }
    }
    assert items[..|items|] == items;
  }

  // ---------------------------------------------------------------------------------------------
  // What a merge is

  /** The items that can be looked up at all. */
  function Kept<T>(items: seq<Item<T>>): seq<Item<T>> {
    if items == [] then []
    else
      var it := items[|items| - 1];
      Kept(items[..|items| - 1]) + if it.source.id.Some? || it.source.name.Some? then [it] else []
  }

  /** Secondary items by ID, where the primary has none with that ID. */
  ghost function AddedByID<T(!new)>(primary: seq<Item<T>>, secondary: seq<Item<T>>): set<Item<T>> {
    set id | id in IndexByID(secondary) && id !in IDs(primary) :: IndexByID(secondary)[id]
  }

  /** Secondary items by name that have no ID, where neither the primary nor an item added by ID has
      that name. */
  ghost function AddedByName<T(!new)>(primary: seq<Item<T>>, secondary: seq<Item<T>>): set<Item<T>> {
    set name | name in IndexByName(secondary) && name !in Names(primary)
               && IndexByName(secondary)[name].source.id.None?
               && (forall it | it in AddedByID(primary, secondary) :: it.source.name != Some(name))
             :: IndexByName(secondary)[name]
  }

  ghost function Added<T(!new)>(primary: seq<Item<T>>, secondary: seq<Item<T>>): set<Item<T>> {
    AddedByID(primary, secondary) + AddedByName(primary, secondary)
  }

  /** The results of a merge, one for every order in which Go may walk the two maps: the primary items
      in their order, followed by the added ones in some order. */
  ghost predicate Merged<T(!new)>(primary: seq<Item<T>>, secondary: seq<Item<T>>, out: seq<Item<T>>) {
    && |Kept(primary)| <= |out|
    && out[..|Kept(primary)|] == Kept(primary)
    && multiset(out[|Kept(primary)|..]) == multiset(Added(primary, secondary))
  }

  ghost function Rest<T(!new)>(primary: seq<Item<T>>, out: seq<Item<T>>): seq<Item<T>>
    requires |Kept(primary)| <= |out|
  {
    out[|Kept(primary)|..]
  }

  lemma {:induction false} KeptMeans<T(!new)>(items: seq<Item<T>>)
    ensures forall it :: it in Kept(items) <==> it in items && (it.source.id.Some? || it.source.name.Some?)
    ensures forall id :: FirstByID(Kept(items), id) == FirstByID(items, id)
    ensures forall id :: LastByID(Kept(items), id) == LastByID(items, id)
    ensures IDs(Kept(items)) == IDs(items) && Names(Kept(items)) == Names(items)
  {
    if items != [] {
      var init, last := items[..|items| - 1], items[|items| - 1];
      KeptMeans(init);
      assert items == init + [last];
      forall id
        ensures FirstByID(Kept(items), id) == FirstByID(items, id)
        ensures LastByID(Kept(items), id) == LastByID(items, id)
      {
        FirstOfConcat(init, [last], id);
        FirstOfConcat(Kept(init), [last], id);
        LastOfConcat(init, [last], id);
        LastOfConcat(Kept(init), [last], id);
        assert Kept(init) + [] == Kept(init);
      }
    }
  }

  lemma {:induction false} KeptOfKept<T(!new)>(items: seq<Item<T>>)
    requires forall it | it in items :: it.source.id.Some? || it.source.name.Some?
    ensures Kept(items) == items
  {
    if items != [] {
      var init, last := items[..|items| - 1], items[|items| - 1];
      assert items == init + [last];
      assert last in items;
      KeptOfKept(init);
    }
  }

  /** Membership in the appended part, spelled out. */
  lemma RestMeans<T(!new)>(primary: seq<Item<T>>, secondary: seq<Item<T>>, out: seq<Item<T>>)
    requires Merged(primary, secondary, out)
    ensures out == Kept(primary) + Rest(primary, out)
    ensures forall it :: it in Rest(primary, out) <==> it in Added(primary, secondary)
  {
    forall it
      ensures it in Rest(primary, out) <==> it in Added(primary, secondary)
    {
      assert it in Rest(primary, out) <==> it in multiset(Rest(primary, out));
    }
  }

  // ---------------------------------------------------------------------------------------------
  // The merge

  method Merge<T(==, !new)>(primary: Option<seq<Item<T>>>, secondary: Option<seq<Item<T>>>)
    returns (out: Option<seq<Item<T>>>)
    ensures primary.None? ==> out == secondary
    ensures primary.Some? && secondary.None? ==> out == primary
    ensures primary.Some? && secondary.Some? ==> out.Some? && Merged(primary.value, secondary.value, out.value)
  {
    if primary.None? {
      return secondary;
    }
    if secondary.None? {
      return primary;
    }
    var p, s := primary.value, secondary.value;
    var byID, byName := IndexByIDAndName(s);
    var kept, usedIDs;
    kept, usedIDs, byID, byName := CopyPrimary(p, byID, byName);
    IDsOfIndexed(s);
    AddedByIDIsAll(p, s);
    var added;
    added, usedIDs, byName := AddByID(byID, byName, usedIDs);
    assert usedIDs == IDs(p) + IndexByID(s).Keys;
    var named := AddByName(p, s, byName, usedIDs);
    var mapping := kept + added + named;
    assert mapping[|Kept(p)|..] == added + named;
    DisjointParts(p, s);
    return Some(mapping);
  }

  /** The loop over the primary: its items go out, and what they use goes from the secondary indexes. */
  method CopyPrimary<T(==, !new)>(p: seq<Item<T>>, secondaryByID: map<string, Item<T>>,
                                  secondaryByName: map<string, Item<T>>)
    returns (mapping: seq<Item<T>>, usedIDs: set<string>, byID: map<string, Item<T>>, byName: map<string, Item<T>>)
    ensures mapping == Kept(p) && usedIDs == IDs(p)
    ensures byID == secondaryByID - IDs(p) && byName == secondaryByName - Names(p)
  {
    mapping, usedIDs, byID, byName := [], {}, secondaryByID, secondaryByName;
    for i := 0 to |p|
      invariant mapping == Kept(p[..i]) && usedIDs == IDs(p[..i])
      invariant byID == secondaryByID - IDs(p[..i]) && byName == secondaryByName - Names(p[..i])
    {
      hide IDs, Names;
      var item := p[i];
      assert p[..i + 1] == p[..i] + [item];
      IDsOfOneMore(p[..i], item);
      var id, name := item.source.id, item.source.name;
      if id.None? && name.None? {
        continue;
      }
      mapping := mapping + [item];
      if id.Some? {
        usedIDs := usedIDs + {id.value};
        byID := byID - {id.value};
      }
      if name.Some? {
        byName := byName - {name.value};
      }
    }
    assert p[..|p|] == p;
  }

  lemma IDsOfOneMore<T(!new)>(items: seq<Item<T>>, item: Item<T>)
    ensures IDs(items + [item]) == IDs(items) + if item.source.id.Some? then {item.source.id.value} else {}
    ensures Names(items + [item]) == Names(items) + if item.source.name.Some? then {item.source.name.value} else {}
  {
    assert forall it :: it in items + [item] <==> it in items || it == item;
    assert item.source.id.Some? ==> item.source.id.value in IDs(items + [item]);
    assert item.source.name.Some? ==> item.source.name.value in Names(items + [item]);
    forall it | it in items
      ensures it.source.id.Some? ==> it.source.id.value in IDs(items + [item])
      ensures it.source.name.Some? ==> it.source.name.value in Names(items + [item])
    {
      assert it in items + [item];
    }
  }

  lemma DisjointParts<T(!new)>(primary: seq<Item<T>>, secondary: seq<Item<T>>)
    ensures AddedByID(primary, secondary) !! AddedByName(primary, secondary)
    ensures multiset(Added(primary, secondary))
              == multiset(AddedByID(primary, secondary)) + multiset(AddedByName(primary, secondary))
  {
    forall id | id in IndexByID(secondary)
      ensures IndexByID(secondary)[id].source.id == Some(id)
    {
      IndexByIDIsLast(secondary, id);
      LastFinds(secondary, id);
    }
  }

  ghost function DoneByID<T(!new)>(byID: map<string, Item<T>>, todo: set<string>): set<Item<T>> {
    set id | id in byID && id !in todo :: byID[id]
  }

  /** The names of the index no item of a set has. */
  ghost predicate LeftBy<T(!new)>(byName: map<string, Item<T>>, done: set<Item<T>>, left: map<string, Item<T>>) {
    && (forall n :: n in left <==> n in byName && forall it | it in done :: it.source.name != Some(n))
    && forall n | n in left :: left[n] == byName[n]
  }

  /** One turn of the first loop over a map. */
  lemma ByIDStep<T(!new)>(byID: map<string, Item<T>>, byName: map<string, Item<T>>, todo: set<string>,
                          added: seq<Item<T>>, left: map<string, Item<T>>, id: string)
    requires multiset(added) == multiset(DoneByID(byID, todo)) && LeftBy(byName, DoneByID(byID, todo), left)
    requires forall k | k in byID :: byID[k].source.id == Some(k)
    requires todo <= byID.Keys && id in todo
    ensures multiset(added + [byID[id]]) == multiset(DoneByID(byID, todo - {id}))
    ensures byID[id].source.name.None? ==> LeftBy(byName, DoneByID(byID, todo - {id}), left)
    ensures byID[id].source.name.Some?
            ==> LeftBy(byName, DoneByID(byID, todo - {id}), left - {byID[id].source.name.value})
  {
    assert byID[id] !in DoneByID(byID, todo);
    assert DoneByID(byID, todo - {id}) == DoneByID(byID, todo) + {byID[id]};
  }

  lemma IDsOfIndexed<T(!new)>(items: seq<Item<T>>)
    ensures forall id | id in IndexByID(items) :: IndexByID(items)[id].source.id == Some(id)
  {
    forall id | id in IndexByID(items)
      ensures IndexByID(items)[id].source.id == Some(id)
    {
      IndexByIDIsLast(items, id);
      LastFinds(items, id);
    }
  }

  lemma AddedByIDIsAll<T(!new)>(p: seq<Item<T>>, s: seq<Item<T>>)
    ensures DoneByID(IndexByID(s) - IDs(p), {}) == AddedByID(p, s)
  {
    var byID := IndexByID(s) - IDs(p);
    forall it | it in AddedByID(p, s)
      ensures it in DoneByID(byID, {})
    {
      var id :| id in IndexByID(s) && id !in IDs(p) && IndexByID(s)[id] == it;
      assert id in byID && byID[id] == it;
    }
  }

  /** The first loop over a map: items by ID, in any order. */
  method AddByID<T(==, !new)>(byID: map<string, Item<T>>, byName: map<string, Item<T>>, used: set<string>)
    returns (added: seq<Item<T>>, usedIDs: set<string>, left: map<string, Item<T>>)
    requires forall id | id in byID :: byID[id].source.id == Some(id)
    ensures multiset(added) == multiset(DoneByID(byID, {}))
    ensures usedIDs == used + byID.Keys
    ensures LeftBy(byName, DoneByID(byID, {}), left)
  {
    added, usedIDs, left := [], used, byName;
    var todo := byID.Keys;
    assert DoneByID(byID, todo) == {};
    hide DoneByID, LeftBy;
    while todo != {}
      invariant todo <= byID.Keys
      invariant multiset(added) == multiset(DoneByID(byID, todo)) && LeftBy(byName, DoneByID(byID, todo), left)
      invariant usedIDs == used + (byID.Keys - todo)
    {
      var id :| id in todo;
      var item := byID[id];
      ByIDStep(byID, byName, todo, added, left, id);
      todo := todo - {id};
      added := added + [item];
      usedIDs := usedIDs + {id};
      if item.source.name.Some? {
        left := left - {item.source.name.value};
      }
    }
  }

  /** The second: only items without an ID can still be added. */
  method AddByName<T(==, !new)>(ghost p: seq<Item<T>>, ghost s: seq<Item<T>>, byName: map<string, Item<T>>,
                                usedIDs: set<string>)
    returns (added: seq<Item<T>>)
    requires usedIDs == IDs(p) + IndexByID(s).Keys
    requires LeftBy(IndexByName(s) - Names(p), AddedByID(p, s), byName)
    ensures multiset(added) == multiset(AddedByName(p, s))
  {
    added := [];
    var todo := byName.Keys;
    ghost var done: set<Item<T>> := {};
    forall n | n in byName
      ensures byName[n].source.name == Some(n)
      ensures byName[n].source.id.Some? ==> byName[n].source.id.value in usedIDs
    {
      IndexByNameIsLast(s, n);
      if byName[n].source.id.Some? {
        IndexByIDIsLast(s, byName[n].source.id.value);
        LastFinds(s, byName[n].source.id.value);
      }
    }
    while todo != {}
      invariant todo <= byName.Keys
      invariant done == set n | n in byName && n !in todo && byName[n].source.id.None? :: byName[n]
      invariant multiset(added) == multiset(done)
    {
      var n :| n in todo;
      var item := byName[n];
      assert item !in done;
      todo := todo - {n};
      if item.source.id.None? || item.source.id.value !in usedIDs {
        added := added + [item];
        done := done + {item};
      }
    }
    forall it | it in AddedByName(p, s)
      ensures it in done
    {
      var n :| n in IndexByName(s) && n !in Names(p) && IndexByName(s)[n].source.id.None? && IndexByName(s)[n] == it
               && forall o | o in AddedByID(p, s) :: o.source.name != Some(n);
      assert n in byName && byName[n] == it;
    }
    assert done == AddedByName(p, s);
  }
}
