/** Removing the data volumes of an import: pkg/datavolumes/datavolumes.go. */
module DataVolumes {
  import opened Wrappers
  import opened ImportStore

  /** How the API server answers during one call of DeleteFor. */
  datatype Answers = Answers(importRead: bool, unreadable: set<string>, undeletable: set<string>)

  /** The objects FindFor returns: one per listed name, an empty one when the read fails. */
  function FoundFor(listed: seq<string>, dvs: set<string>, unreadable: set<string>): (r: seq<string>)
    ensures |r| == |listed|
  {
    seq(|listed|, i requires 0 <= i < |listed| =>
      if listed[i] in dvs && listed[i] !in unreadable then listed[i] else "")
  }

  /** The data volumes left after deleting the objects found; an object without a name, one that is
      already gone and one that cannot be deleted each count as an error. */
  function DeleteAll(found: seq<string>, dvs: set<string>, undeletable: set<string>): (bool, set<string>) {
    if found == [] then (true, dvs)
    else
      var (ok, left) := DeleteAll(found[..|found| - 1], dvs, undeletable);
      var name := found[|found| - 1];
      if name != "" && name in left && name !in undeletable then (ok, left - {name}) else (false, left)
  }

  lemma DeleteAllOfOneMore(found: seq<string>, i: nat, dvs: set<string>, undeletable: set<string>)
    requires i < |found|
    ensures var (ok, left) := DeleteAll(found[..i], dvs, undeletable);
            DeleteAll(found[..i + 1], dvs, undeletable)
            == if found[i] != "" && found[i] in left && found[i] !in undeletable
               then (ok, left - {found[i]}) else (false, left)
  {
    assert found[..i + 1][..i] == found[..i];
  }

  /** The result of DeleteFor: whether it returns nil, and the data volumes left. */
  function DeleteOutcome(s: Store, a: Answers): (bool, set<string>) {
    if !a.importRead then (true, s.dvs)
    else DeleteAll(FoundFor(s.cr.dataVolumes, s.dvs, a.unreadable), s.dvs, a.undeletable)
  }

  predicate Distinct(names: seq<string>) {
    forall i, j | 0 <= i < j < |names| :: names[i] != names[j]
  }

  lemma {:induction false} DeleteAllEffect(found: seq<string>, dvs: set<string>, undeletable: set<string>)
    ensures var (ok, left) := DeleteAll(found, dvs, undeletable);
            && left <= dvs
            && (forall d | d in dvs :: d !in found ==> d in left)
            && (ok ==> forall d | d in found :: d !in left)
            && (ok <==> Distinct(found) && forall d | d in found :: d != "" && d in dvs && d !in undeletable)
  {
    if found != [] {
      var init, name := found[..|found| - 1], found[|found| - 1];
      DeleteAllEffect(init, dvs, undeletable);
      DistinctStep(found);
      hide Distinct;
    }
  }

  lemma DistinctStep(found: seq<string>)
    requires found != []
    ensures var init, name := found[..|found| - 1], found[|found| - 1];
            && (Distinct(found) <==> Distinct(init) && name !in init)
            && forall d :: d in found <==> d in init || d == name
  {
    var init, name := found[..|found| - 1], found[|found| - 1];
    assert found == init + [name];
    if name in init {
      var i :| 0 <= i < |init| && init[i] == name;
      assert found[i] == found[|found| - 1];
    }
  }

  /** When it reports success having read the import, every listed data volume existed, was listed
      once and could be read and deleted - and conversely. */
  lemma DeleteForSucceeds(s: Store, a: Answers)
    requires "" !in s.dvs
    ensures DeleteOutcome(s, a).0 <==>
            !a.importRead
            || (Distinct(s.cr.dataVolumes)
                && forall d | d in s.cr.dataVolumes :: d in s.dvs && d !in a.unreadable && d !in a.undeletable)
  {
    var listed := s.cr.dataVolumes;
    var found := FoundFor(listed, s.dvs, a.unreadable);
    DeleteAllEffect(found, s.dvs, a.undeletable);
    if a.importRead {
      assert forall i | 0 <= i < |listed| :: found[i] == listed[i] || found[i] == "";
      if forall d | d in listed :: d in s.dvs && d !in a.unreadable && d !in a.undeletable {
        assert found == listed;
      } else {
        var d :| d in listed && !(d in s.dvs && d !in a.unreadable && d !in a.undeletable);
        var i :| 0 <= i < |listed| && listed[i] == d;
        assert found[i] in found;
      }
      if DeleteOutcome(s, a).0 {
        assert forall i | 0 <= i < |listed| :: found[i] in found;
        assert found == listed;
      }
    }
  }

  /** A clean-up reported as successful removes the listed data volumes unless the read of the import
      failed: that error is dropped, and then it does so exactly when there was none to remove. */
  lemma SuccessMeansGone(s: Store, a: Answers)
    requires "" !in s.dvs
    requires DeleteOutcome(s, a).0
    ensures (forall d | d in s.cr.dataVolumes :: d !in DeleteOutcome(s, a).1) <==>
            a.importRead || forall d | d in s.cr.dataVolumes :: d !in s.dvs
    ensures forall d | d in s.dvs && d !in s.cr.dataVolumes :: d in DeleteOutcome(s, a).1
  {
    if a.importRead {
      DeleteForSucceeds(s, a);
      var listed := s.cr.dataVolumes;
      var found := FoundFor(listed, s.dvs, a.unreadable);
      assert forall i | 0 <= i < |listed| :: listed[i] in listed;
      assert found == listed;
      DeleteAllEffect(found, s.dvs, a.undeletable);
    }
  }

  /** A concrete run in which the dropped error leaves the data volume behind. */
  lemma DroppedErrorLeavesVolume()
    ensures exists s: Store, a: Answers ::
              s.cr.dataVolumes == ["disk"] && s.dvs == {"disk"} && DeleteOutcome(s, a) == (true, {"disk"})
  {
    var cr := Import([], None, None, [], false, "vm", ["disk"]);
    var s := Store(cr, {"vm"}, {"disk"}, Down);
    assert DeleteOutcome(s, Answers(false, {}, {})) == (true, {"disk"});
  }

  method FindFor(client: Client, answers: Answers) returns (dvs: Option<seq<string>>)
    ensures dvs == if answers.importRead
                   then Some(FoundFor(client.store.cr.dataVolumes, client.store.dvs, answers.unreadable))
                   else None
  {
    if !answers.importRead {
      return None;
    }
    var listed := client.store.cr.dataVolumes;
    var found: seq<string> := [];
    for i := 0 to |listed|
      invariant found == FoundFor(listed, client.store.dvs, answers.unreadable)[..i]
    {
      if listed[i] in client.store.dvs && listed[i] !in answers.unreadable {
        found := found + [listed[i]];
      } else {
        found := found + [""];
      }
    }
    assert found == FoundFor(listed, client.store.dvs, answers.unreadable);
    return Some(found);
  }

  method DeleteFor(client: Client, answers: Answers) returns (ok: bool)
    modifies client`store, client`troubled
    ensures client.troubled == (old(client.troubled) || !ok || !answers.importRead)
    ensures client.store == old(client.store).(dvs := DeleteOutcome(old(client.store), answers).1)
    ensures ok == DeleteOutcome(old(client.store), answers).0
  {
    ok := true;
    var dvs := FindFor(client, answers);
    client.troubled := client.troubled || !answers.importRead;
    if dvs.Some? {
      var found := dvs.value;
      ghost var before := client.store.dvs;
      for i := 0 to |found|
        invariant client.store == old(client.store).(dvs := client.store.dvs)
        invariant client.troubled == (old(client.troubled) || !ok)
        invariant (ok, client.store.dvs) == DeleteAll(found[..i], before, answers.undeletable)
      {
        DeleteAllOfOneMore(found, i, before, answers.undeletable);
        hide DeleteAll;
        if found[i] != "" && found[i] in client.store.dvs && found[i] !in answers.undeletable {
          client.store := client.store.(dvs := client.store.dvs - {found[i]});
        } else {
          ok := false;
          client.troubled := true;
        }
      }
      assert found[..|found|] == found;
    }
  }
}

/** Removing the target VM of an import: pkg/virtualmachines/virtualmachines.go. */
module VirtualMachines {
  import opened Wrappers
  import opened ImportStore

  /** Success means that no target VM was recorded, or that it existed and is gone, whoever had created
      it. */
  method DeleteFor(client: Client) returns (ok: bool)
    modifies client
    ensures var s, h := old(client.store), old(client.hist);
            var target := s.cr.targetVMName;
            if ok && target != ""
            then && target in s.vms && client.store == s.(vms := s.vms - {target})
                 && client.hist == h.(cleanup := Parted(h.cleanup, target))
            else client.store == s && client.hist == h
    ensures Accounted(old(client.troubled), client.troubled, ok)
  {
    var cr;
    ok, cr := client.GetImport();
    if ok && cr.targetVMName != "" {
      ok := client.GetVM(cr.targetVMName);
      if ok {
        ok := client.DeleteVM(cr.targetVMName);
      }
    }
  }
}
