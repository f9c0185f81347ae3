/** The laws of the mapping merge, for every order in which Go may walk the two secondary indexes. */
module MergeLaws {
  import opened Wrappers
  import opened Mappings

  function FirstByName<T>(items: seq<Item<T>>, name: string): Option<Item<T>> {
    if items == [] then None
    else if items[0].source.name == Some(name) then Some(items[0])
    else FirstByName(items[1..], name)
  }

  ghost predicate DistinctIDs<T(!new)>(items: seq<Item<T>>) {
    forall i, j | 0 <= i < j < |items| && items[i].source.id.Some? :: items[i].source.id != items[j].source.id
  }

  // ---------------------------------------------------------------------------------------------
  // By ID the merge is a map override

  /** Which appended items have an ID: those taken from the secondary's index, each under its own ID. */
  lemma AddedUnder<T(!new)>(p: seq<Item<T>>, s: seq<Item<T>>, id: string)
    ensures forall it | it in Added(p, s) && it.source.id == Some(id) ::
              id !in IDs(p) && LastByID(s, id) == Some(it)
    ensures id !in IDs(p) && LastByID(s, id).Some? ==> LastByID(s, id).value in Added(p, s)
  {
    IDsOfIndexed(s);
    IndexByIDIsLast(s, id);
    forall it | it in Added(p, s) && it.source.id == Some(id)
      ensures id !in IDs(p) && LastByID(s, id) == Some(it)
    {
      assert it in AddedByID(p, s);
    }
    if id !in IDs(p) && LastByID(s, id).Some? {
      assert IndexByID(s)[id] in AddedByID(p, s);
    }
  }

  lemma LookupInRest<T(!new)>(p: seq<Item<T>>, s: seq<Item<T>>, out: seq<Item<T>>, id: string)
    requires Merged(p, s, out)
    ensures FirstByID(Rest(p, out), id) == LastByID(Rest(p, out), id)
    ensures FirstByID(Rest(p, out), id) == if id in IDs(p) then None else LastByID(s, id)
  {
    hide AddedByID, AddedByName, Added;
    var rest := Rest(p, out);
    RestMeans(p, s, out);
    AddedUnder(p, s, id);
    LastFinds(s, id);
    FirstFinds(rest, id);
    LastFinds(rest, id);
    if id !in IDs(p) && LastByID(s, id).Some? {
      FirstOfUnique(rest, id, LastByID(s, id).value);
      LastOfUnique(rest, id, LastByID(s, id).value);
    }
  }

  /** The first match for an ID is the primary's first, if it has one, and the secondary's last
      otherwise; the last match is the primary's last, under the same condition. */
  lemma {:induction false} MergeOverrides<T(!new)>(p: seq<Item<T>>, s: seq<Item<T>>, out: seq<Item<T>>, id: string)
    requires Merged(p, s, out)
    ensures FirstByID(out, id) == if id in IDs(p) then FirstByID(p, id) else LastByID(s, id)
    ensures LastByID(out, id) == if id in IDs(p) then LastByID(p, id) else LastByID(s, id)
  {
    RestMeans(p, s, out);
    LookupInRest(p, s, out, id);
    KeptMeans(p);
    FirstFinds(p, id);
    LastFinds(p, id);
    FirstOfConcat(Kept(p), Rest(p, out), id);
    LastOfConcat(Kept(p), Rest(p, out), id);
  }

  /** No ID is lost or invented, and the appended part introduces each of its IDs once. */
  lemma MergedIDs<T(!new)>(p: seq<Item<T>>, s: seq<Item<T>>, out: seq<Item<T>>)
    requires Merged(p, s, out)
    ensures IDs(out) == IDs(p) + IDs(s)
    ensures IDs(Rest(p, out)) == IDs(s) - IDs(p)
    ensures DistinctIDs(Rest(p, out))
  {
    hide IDs, AddedByID, AddedByName;
    forall id: string
      ensures id in IDs(out) <==> id in IDs(p) + IDs(s)
      ensures id in IDs(Rest(p, out)) <==> id in IDs(s) - IDs(p)
    {
      MergeOverrides(p, s, out, id);
      LookupInRest(p, s, out, id);
      FirstFinds(out, id);
      FirstFinds(p, id);
      LastFinds(s, id);
      FirstFinds(Rest(p, out), id);
    }
    RestIsDistinct(p, s, out);
  }

  lemma RestIsDistinct<T(!new)>(p: seq<Item<T>>, s: seq<Item<T>>, out: seq<Item<T>>)
    requires Merged(p, s, out)
    ensures DistinctIDs(Rest(p, out))
  {
    hide AddedByID, AddedByName, Added;
    var rest := Rest(p, out);
    RestMeans(p, s, out);
    forall i, j | 0 <= i < j < |rest| && rest[i].source.id.Some?
      ensures rest[i].source.id != rest[j].source.id
    {
      AddedUnder(p, s, rest[i].source.id.value);
      assert rest[i] in rest && rest[j] in rest;
      assert multiset(rest)[rest[i]] == multiset(Added(p, s))[rest[i]] <= 1;
      if rest[i] == rest[j] {
        TwiceInMultiset(rest, i, j);
      }
    }
  }

  lemma TwiceInMultiset<X>(xs: seq<X>, i: int, j: int)
    requires 0 <= i < j < |xs| && xs[i] == xs[j]
    ensures multiset(xs)[xs[i]] >= 2
  {
    assert xs == xs[..j] + [xs[j]] + xs[j + 1..];
    assert xs[i] == xs[..j][i];
    assert xs[i] in xs[..j];
    assert xs[i] in multiset(xs[..j]);
  }

  /** Which names can be looked up: those of the primary, those of the secondary's last items by ID, where
      the primary has not their ID, and those whose last item in the secondary has no ID. */
  lemma MergedNames<T(!new)>(p: seq<Item<T>>, s: seq<Item<T>>, out: seq<Item<T>>, name: string)
    requires Merged(p, s, out)
    ensures name in Names(out) <==>
            || name in Names(p)
            || (exists id :: id !in IDs(p) && LastByID(s, id).Some? && LastByID(s, id).value.source.name == Some(name))
            || (LastByName(s, name).Some? && LastByName(s, name).value.source.id.None?)
  {
    RestMeans(p, s, out);
    KeptMeans(p);
    IndexByNameIsLast(s, name);
    if it :| it in AddedByID(p, s) && it.source.name == Some(name) {
      var id :| id in IndexByID(s) && id !in IDs(p) && IndexByID(s)[id] == it;
      IndexByIDIsLast(s, id);
      assert it in Rest(p, out);
      assert it in out;
    }
    if id :| id !in IDs(p) && LastByID(s, id).Some? && LastByID(s, id).value.source.name == Some(name) {
      IndexByIDIsLast(s, id);
      assert IndexByID(s)[id] in AddedByID(p, s);
    }
    if LastByName(s, name).Some? && LastByName(s, name).value.source.id.None? {
      NamedIsThere(p, s, out, name);
    }
    NamesOfParts(p, s, out, name);
  }

  lemma NamesOfParts<T(!new)>(p: seq<Item<T>>, s: seq<Item<T>>, out: seq<Item<T>>, name: string)
    requires Merged(p, s, out)
    ensures name in Names(out) <==>
            || name in Names(p)
            || (exists it :: it in AddedByID(p, s) && it.source.name == Some(name))
            || (exists it :: it in AddedByName(p, s) && it.source.name == Some(name))
    ensures (exists it :: it in AddedByName(p, s) && it.source.name == Some(name)) ==>
              LastByName(s, name).Some? && LastByName(s, name).value.source.id.None?
  {
    RestMeans(p, s, out);
    KeptMeans(p);
    assert Names(Kept(p)) == Names(p);
    assert forall it :: it in out <==> it in Kept(p) || it in Rest(p, out);
    if it :| it in AddedByName(p, s) && it.source.name == Some(name) {
      var n :| n in IndexByName(s) && IndexByName(s)[n] == it && it.source.id.None?;
      IndexByNameIsLast(s, n);
    }
  }

  // ---------------------------------------------------------------------------------------------
  // Map iteration order

  /** Two merges of the same lists differ only in the order of the appended items, and no lookup by ID
      can tell them apart. */
  lemma OrderDoesNotMatter<T(!new)>(p: seq<Item<T>>, s: seq<Item<T>>, out: seq<Item<T>>, other: seq<Item<T>>)
    requires Merged(p, s, out) && Merged(p, s, other)
    ensures multiset(out) == multiset(other)
    ensures out[..|Kept(p)|] == other[..|Kept(p)|] == Kept(p)
    ensures forall id :: FirstByID(out, id) == FirstByID(other, id) && LastByID(out, id) == LastByID(other, id)
  {
    RestMeans(p, s, out);
    RestMeans(p, s, other);
    forall id: string
      ensures FirstByID(out, id) == FirstByID(other, id) && LastByID(out, id) == LastByID(other, id)
    {
      MergeOverrides(p, s, out, id);
      MergeOverrides(p, s, other, id);
    }
  }

  /** Whether the first match for a name is the same in every order can be read off the two lists: the
      primary has the name, or one appended item at most has it. */
  ghost predicate NameIsSettled<T(!new)>(p: seq<Item<T>>, s: seq<Item<T>>, name: string) {
    || name in Names(p)
    || forall x, y | x in Added(p, s) && y in Added(p, s) && x.source.name == y.source.name == Some(name) :: x == y
  }

  lemma NameLookupsAgree<T(!new)>(p: seq<Item<T>>, s: seq<Item<T>>, name: string)
    ensures NameIsSettled(p, s, name)
            <==> forall out, other | Merged(p, s, out) && Merged(p, s, other) ::
                   FirstByName(out, name) == FirstByName(other, name)
  {
    if NameIsSettled(p, s, name) {
      forall out, other | Merged(p, s, out) && Merged(p, s, other)
        ensures FirstByName(out, name) == FirstByName(other, name)
      {
        SettledNameLookup(p, s, out, other, name);
      }
    } else {
      var x, y :| x in Added(p, s) && y in Added(p, s) && x.source.name == y.source.name == Some(name) && x != y;
      var out := StartingWith(p, s, x);
      var other := StartingWith(p, s, y);
      FirstOfStart(p, out, x, name);
      FirstOfStart(p, other, y, name);
    }
  }

  lemma {:induction false} FirstByNameFinds<T(!new)>(items: seq<Item<T>>, name: string)
    ensures FirstByName(items, name).Some? <==> name in Names(items)
    ensures FirstByName(items, name).Some? ==> FirstByName(items, name).value in items
                                               && FirstByName(items, name).value.source.name == Some(name)
  {
    if items != [] {
      FirstByNameFinds(items[1..], name);
      assert items == [items[0]] + items[1..];
    }
  }

  lemma {:induction false} FirstByNameOfConcat<T(!new)>(a: seq<Item<T>>, b: seq<Item<T>>, name: string)
    ensures FirstByName(a + b, name) == if name in Names(a) then FirstByName(a, name) else FirstByName(b, name)
  {
    FirstByNameFinds(a, name);
    if a == [] {
      assert a + b == b;
    } else {
      assert (a + b)[1..] == a[1..] + b;
      FirstByNameOfConcat(a[1..], b, name);
      FirstByNameFinds(a[1..], name);
    }
  }

  lemma SettledNameLookup<T(!new)>(p: seq<Item<T>>, s: seq<Item<T>>, out: seq<Item<T>>, other: seq<Item<T>>,
                                    name: string)
    requires Merged(p, s, out) && Merged(p, s, other) && NameIsSettled(p, s, name)
    ensures FirstByName(out, name) == FirstByName(other, name)
  {
    hide AddedByID, AddedByName, Added, Merged;
    RestMeans(p, s, out);
    RestMeans(p, s, other);
    KeptMeans(p);
    FirstByNameOfConcat(Kept(p), Rest(p, out), name);
    FirstByNameOfConcat(Kept(p), Rest(p, other), name);
    FirstByNameFinds(Rest(p, out), name);
    FirstByNameFinds(Rest(p, other), name);
  }

  /** A merge that happens to append `x` first. */
  lemma StartingWith<T(!new)>(p: seq<Item<T>>, s: seq<Item<T>>, x: Item<T>) returns (out: seq<Item<T>>)
    requires x in Added(p, s)
    ensures Merged(p, s, out) && |out| > |Kept(p)| && out[|Kept(p)|] == x
  {
    var rest := Listed(Added(p, s) - {x});
    out := Kept(p) + ([x] + rest);
    assert out[|Kept(p)|..] == [x] + rest;
    assert Added(p, s) == {x} + (Added(p, s) - {x});
  }

  lemma {:induction false} Listed<X>(xs: set<X>) returns (list: seq<X>)
    ensures multiset(list) == multiset(xs)
  {
    if xs == {} {
      list := [];
    } else {
      var x :| x in xs;
      var rest := Listed(xs - {x});
      list := [x] + rest;
      assert xs == {x} + (xs - {x});
    }
  }

  lemma FirstOfStart<T(!new)>(p: seq<Item<T>>, out: seq<Item<T>>, x: Item<T>, name: string)
    requires |out| > |Kept(p)| && out[..|Kept(p)|] == Kept(p) && out[|Kept(p)|] == x
    requires x.source.name == Some(name) && name !in Names(p)
    ensures FirstByName(out, name) == Some(x)
  {
    KeptMeans(p);
    var rest := out[|Kept(p)|..];
    assert out == Kept(p) + rest;
    FirstByNameOfConcat(Kept(p), rest, name);
  }

  // ---------------------------------------------------------------------------------------------
  // Absorption and associativity

  /** Merging the same secondary in again changes nothing. */
  lemma MergeAbsorbs<T(!new)>(p: seq<Item<T>>, s: seq<Item<T>>, out: seq<Item<T>>, again: seq<Item<T>>)
    requires Merged(p, s, out) && Merged(out, s, again)
    ensures again == out
  {
    MergedCanBeLookedUp(p, s, out);
    KeptOfKept(out);
    MergedIDs(p, s, out);
    NothingToAdd(p, s, out);
    RestMeans(out, s, again);
    assert again == Kept(out) + Rest(out, again);
    assert Rest(out, again) == [] by {
      assert multiset(Rest(out, again)) == multiset{};
    }
  }

  lemma MergedCanBeLookedUp<T(!new)>(p: seq<Item<T>>, s: seq<Item<T>>, out: seq<Item<T>>)
    requires Merged(p, s, out)
    ensures forall it | it in out :: it.source.id.Some? || it.source.name.Some?
  {
    RestMeans(p, s, out);
    KeptMeans(p);
    IDsOfIndexed(s);
    forall name | name in IndexByName(s)
      ensures IndexByName(s)[name].source.name == Some(name)
    {
      IndexByNameIsLast(s, name);
    }
  }

  lemma NothingToAdd<T(!new)>(p: seq<Item<T>>, s: seq<Item<T>>, out: seq<Item<T>>)
    requires Merged(p, s, out) && IDs(s) <= IDs(out)
    ensures Added(out, s) == {}
  {
    RestMeans(p, s, out);
    KeptMeans(p);
    forall id | id in IndexByID(s)
      ensures id in IDs(out)
    {
      IndexByIDIsLast(s, id);
      LastFinds(s, id);
    }
    assert AddedByID(out, s) == {};
    forall name | name in IndexByName(s) && IndexByName(s)[name].source.id.None?
      ensures name in Names(out)
    {
      NamedIsThere(p, s, out, name);
    }
  }

  lemma NamedIsThere<T(!new)>(p: seq<Item<T>>, s: seq<Item<T>>, out: seq<Item<T>>, name: string)
    requires Merged(p, s, out) && name in IndexByName(s) && IndexByName(s)[name].source.id.None?
    ensures name in Names(out)
  {
    RestMeans(p, s, out);
    KeptMeans(p);
    IndexByNameIsLast(s, name);
    if name in Names(p) {
      FirstByNameFinds(Kept(p), name);
      assert FirstByName(Kept(p), name).value in out;
    } else if it :| it in AddedByID(p, s) && it.source.name == Some(name) {
      assert it in Rest(p, out);
      assert it in out;
    } else {
      var it := IndexByName(s)[name];
      assert it in AddedByName(p, s);
      assert it in Rest(p, out);
      assert it in out;
    }
  }

  /** Merging a list with itself leaves what can be looked up. */
  lemma MergeWithItself<T(!new)>(items: seq<Item<T>>, out: seq<Item<T>>)
    requires Merged(items, items, out)
    ensures out == Kept(items)
  {
    forall id | id in IndexByID(items)
      ensures id in IDs(items)
    {
      IndexByIDIsLast(items, id);
      LastFinds(items, id);
    }
    forall name | name in IndexByName(items)
      ensures name in Names(items)
    {
      IndexByNameIsLast(items, name);
    }
    assert Added(items, items) == {};
    RestMeans(items, items, out);
    assert multiset(Rest(items, out)) == multiset{};
  }

  /** A merge of lists that may be missing. */
  ghost predicate Merges<T(!new)>(primary: Option<seq<Item<T>>>, secondary: Option<seq<Item<T>>>,
                                  out: Option<seq<Item<T>>>)
  {
    if primary.None? then out == secondary
    else if secondary.None? then out == primary
    else out.Some? && Merged(primary.value, secondary.value, out.value)
  }

  ghost function Lookup<T(!new)>(items: Option<seq<Item<T>>>, id: string): Option<Item<T>> {
    if items.None? then None else FirstByID(items.value, id)
  }

  ghost function LookupLast<T(!new)>(items: Option<seq<Item<T>>>, id: string): Option<Item<T>> {
    if items.None? then None else LastByID(items.value, id)
  }

  ghost function OrElse<T(!new)>(a: Option<T>, b: Option<T>): Option<T> {
    if a.Some? then a else b
  }

  lemma MergesOverride<T(!new)>(a: Option<seq<Item<T>>>, b: Option<seq<Item<T>>>, ab: Option<seq<Item<T>>>, id: string)
    requires Merges(a, b, ab)
    ensures LookupLast(ab, id) == OrElse(LookupLast(a, id), LookupLast(b, id))
    ensures a.Some? && b.Some? ==> Lookup(ab, id) == OrElse(Lookup(a, id), LookupLast(b, id))
  {
    hide Merged;
    if a.Some? && b.Some? {
      MergeOverrides(a.value, b.value, ab.value, id);
      FirstFinds(a.value, id);
      LastFinds(a.value, id);
    }
  }

  /** However three lists are bracketed, every lookup by ID agrees; any of the lists may be missing. */
  lemma MergeIsAssociative<T(!new)>(a: Option<seq<Item<T>>>, b: Option<seq<Item<T>>>, c: Option<seq<Item<T>>>,
                                    ab: Option<seq<Item<T>>>, bc: Option<seq<Item<T>>>,
                                    left: Option<seq<Item<T>>>, right: Option<seq<Item<T>>>, id: string)
    requires Merges(a, b, ab) && Merges(ab, c, left)
    requires Merges(b, c, bc) && Merges(a, bc, right)
    ensures Lookup(left, id) == Lookup(right, id)
  {
    hide FirstByID, LastByID, Merged;
    MergesOverride(a, b, ab, id);
    MergesOverride(ab, c, left, id);
    MergesOverride(b, c, bc, id);
    MergesOverride(a, bc, right, id);
  }
}
