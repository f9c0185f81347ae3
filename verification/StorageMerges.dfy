/** Every reconcile merges the mappings again, in whatever order Go walks its maps, while an import is
    validated once: what the storage checks are worth for a later merge
    (pkg/providers/ovirt/provider.go, pkg/mappings/merger.go, pkg/providers/ovirt/mapper/mapper.go). */
module StorageMerges {
  import opened Wrappers
  import opened Mappings
  import opened MergeLaws
  import opened Validation
  import opened StorageMapping
  import opened OvirtDisks

  lemma {:induction false} FirstMatchFinds(items: seq<StorageItem>, id: string, name: string)
    ensures FirstMatch(items, id, name).Some? <==> exists item | item in items :: Matches(item, id, name)
    ensures FirstMatch(items, id, name).Some? ==> FirstMatch(items, id, name).value in items
                                                  && Matches(FirstMatch(items, id, name).value, id, name)
  {
    if items != [] {
      FirstMatchFinds(items[1..], id, name);
      assert items == [items[0]] + items[1..];
      assert items[0] in items;
    }
  }

  lemma {:induction false} FirstMatchOfConcat(a: seq<StorageItem>, b: seq<StorageItem>, id: string, name: string)
    ensures FirstMatch(a + b, id, name) == if FirstMatch(a, id, name).Some? then FirstMatch(a, id, name)
                                           else FirstMatch(b, id, name)
  {
    if a == [] {
      assert a + b == b;
    } else {
      assert (a + b)[1..] == a[1..] + b;
      FirstMatchOfConcat(a[1..], b, id, name);
    }
  }

  /** Whether the order matters for a disk's storage domain: it does not if the primary has a match, or
      if one appended item at most is one. */
  ghost predicate OrderFree(p: seq<StorageItem>, s: seq<StorageItem>, id: string, name: string) {
    || (exists item | item in p :: Matches(item, id, name))
    || forall x, y | x in Added(p, s) && y in Added(p, s) && Matches(x, id, name) && Matches(y, id, name) :: x == y
  }

  lemma MatchInPrimary(p: seq<StorageItem>, id: string, name: string)
    ensures FirstMatch(Kept(p), id, name).Some? <==> exists item | item in p :: Matches(item, id, name)
  {
    KeptMeans(p);
    FirstMatchFinds(Kept(p), id, name);
  }

  lemma OrderFreeMatch(p: seq<StorageItem>, s: seq<StorageItem>, out: seq<StorageItem>, other: seq<StorageItem>,
                       id: string, name: string)
    requires Merged(p, s, out) && Merged(p, s, other) && OrderFree(p, s, id, name)
    ensures FirstMatch(out, id, name) == FirstMatch(other, id, name)
  {
    hide AddedByID, AddedByName, Added, Merged, FirstMatch, Matches;
    RestMeans(p, s, out);
    RestMeans(p, s, other);
    MatchInPrimary(p, id, name);
    FirstMatchOfConcat(Kept(p), Rest(p, out), id, name);
    FirstMatchOfConcat(Kept(p), Rest(p, other), id, name);
    FirstMatchFinds(Rest(p, out), id, name);
    FirstMatchFinds(Rest(p, other), id, name);
  }

  /** All orders give the scan the same item exactly then. */
  lemma ScansAgreeIff(p: seq<StorageItem>, s: seq<StorageItem>, id: string, name: string)
    ensures OrderFree(p, s, id, name)
            <==> forall out, other | Merged(p, s, out) && Merged(p, s, other) ::
                   FirstMatch(out, id, name) == FirstMatch(other, id, name)
  {
    if OrderFree(p, s, id, name) {
      forall out, other | Merged(p, s, out) && Merged(p, s, other)
        ensures FirstMatch(out, id, name) == FirstMatch(other, id, name)
      {
        OrderFreeMatch(p, s, out, other, id, name);
      }
    } else {
      var x, y :| x in Added(p, s) && y in Added(p, s) && Matches(x, id, name) && Matches(y, id, name) && x != y;
      var out := StartingWith(p, s, x);
      var other := StartingWith(p, s, y);
      FirstMatchOfStart(p, out, x, id, name);
      FirstMatchOfStart(p, other, y, id, name);
    }
  }

  lemma FirstMatchOfStart(p: seq<StorageItem>, out: seq<StorageItem>, x: StorageItem, id: string, name: string)
    requires |out| > |Kept(p)| && out[..|Kept(p)|] == Kept(p) && out[|Kept(p)|] == x
    requires Matches(x, id, name) && forall item | item in p :: !Matches(item, id, name)
    ensures FirstMatch(out, id, name) == Some(x)
  {
    MatchInPrimary(p, id, name);
    var rest := out[|Kept(p)|..];
    assert out == Kept(p) + rest;
    FirstMatchOfConcat(Kept(p), rest, id, name);
  }

  /** A disk whose item does not depend on the order of the merge. */
  ghost predicate DomainIsOrderFree(disk: Disk, p: seq<StorageItem>, s: seq<StorageItem>) {
    disk.domain.Some? ==> OrderFree(p, s, disk.domain.value.id, disk.domain.value.name)
  }

  lemma SameChoice(disk: Disk, disks: seq<StorageItem>, p: seq<StorageItem>, s: seq<StorageItem>,
                   out: seq<StorageItem>, other: seq<StorageItem>)
    requires Merged(p, s, out) && Merged(p, s, other) && DomainIsOrderFree(disk, p, s)
    ensures ScannedChoice(disk, disks, out) == ScannedChoice(disk, disks, other)
  {
    if disk.domain.Some? {
      OrderFreeMatch(p, s, out, other, disk.domain.value.id, disk.domain.value.name);
    } else {
      OrderDoesNotMatter(p, s, out, other);
      assert forall item :: (item in out <==> item in multiset(out)) && (item in other <==> item in multiset(other));
    }
  }

  ghost predicate AllOrderFree(attachments: seq<Attachment>, p: seq<StorageItem>, s: seq<StorageItem>) {
    forall a | a in attachments && a.disk.Some? :: DomainIsOrderFree(a.disk.value, p, s)
  }

  /** Merging again does not change the DataVolumes. */
  lemma {:induction false} SameVolumes(plan: Plan, attachments: seq<Attachment>, p: seq<StorageItem>,
                                       s: seq<StorageItem>, other: seq<StorageItem>)
    requires Merged(p, s, plan.storages) && Merged(p, s, other) && AllOrderFree(attachments, p, s)
    requires plan.NoFaults(attachments)
    ensures plan.(storages := other).NoFaults(attachments)
    ensures plan.(storages := other).Volumes(attachments) == plan.Volumes(attachments)
  {
    if attachments != [] {
      var init, last := attachments[..|attachments| - 1], attachments[|attachments| - 1];
      assert attachments == init + [last];
      assert last in attachments && forall a | a in init :: a in attachments;
      hide Merged, ScannedChoice, OrderFree;
      SameVolumes(plan, init, p, s, other);
      assert plan.Fault(last).None?;
      SameChoice(last.disk.value, plan.disks, p, s, plan.storages, other);
    }
  }

  /** What the validator let through with one merge, the mapper finds with any other: the storage checks
      pass exactly when every class named by the DataVolumes of a later reconcile can be found. */
  lemma PassedMeansFoundLater(plan: Plan, attachments: seq<Attachment>, p: seq<StorageItem>, s: seq<StorageItem>,
                              other: seq<StorageItem>,
                              actions: Actions, errors: FindErrors, failures: seq<CheckFailure>)
    requires Merged(p, s, plan.storages) && Merged(p, s, other) && AllOrderFree(attachments, p, s)
    requires StorageActions(actions) && Validated(plan, attachments, errors, failures)
    requires plan.NoFaults(attachments) && AllSettled(plan, attachments) && Fitting(plan.targetVMName, attachments)
    ensures plan.(storages := other).NoFaults(attachments)
    ensures !Reported(actions, failures, Action.Block)
            <==> forall name | name in plan.(storages := other).Volumes(attachments) ::
                   var wanted := plan.(storages := other).Volumes(attachments)[name].storageClassName;
                   wanted.Some? ==> wanted.value !in errors
  {
    SameVolumes(plan, attachments, p, s, other);
    PassedMeansFound(plan, attachments, actions, errors, failures);
    hide Reported, AllSettled, Validated, Merged;
  }
}
