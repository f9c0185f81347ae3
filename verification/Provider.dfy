/** The source provider as steps of the import: pkg/providers/ovirt/provider.go, and the VMware
    provider where the two differ. */
module Provider {
  import opened Wrappers
  import opened Conditions
  import opened ImportStore
  import opened ImportState
  import opened Validation
  import DataVolumes
  import VirtualMachines

  datatype Error = Fine | Locked | OtherError

  /** The effect of StopVM. `current`: what is cached of the source is not out of date. */
  ghost predicate Stopped(inst: Import, s: Store, h: History, inst': Import, t: Store, g: History, ok: bool,
                          current: bool)
  {
    && inst' == inst.(finalizers := inst'.finalizers)
    && (inst' == inst || inst'.finalizers == inst.finalizers + [RestoreVMState])
    && t == s.(power := t.power, cr := if inst' == inst then s.cr else s.cr.(finalizers := inst'.finalizers))
    && g == h.(sound := g.sound, quiet := g.quiet, marked := g.marked)
    && (g.sound ==> h.sound) && (g.quiet ==> h.quiet) && (h.marked ==> g.marked)
    && (ok && current ==>
          if s.power == Down then t == s && inst' == inst && g == h
          else t.power == Down && RestoreVMState in inst'.finalizers)
    && (g.marked && !h.marked ==> RestoreVMState in inst'.finalizers)
    && (inst' != inst ==> g.marked)
    && (!ok && g.calm ==> t == s && inst' == inst)
  }

  /** A stop that fails but brings the source down is not retried: the next one finds it down, succeeds,
      and writes nothing, so that the restore finalizer is as absent as it was. */
  lemma RetryWritesNothing(inst: Import, s: Store, h: History, inst': Import, t: Store, g: History, inst'': Import,
                           u: Store, k: History)
    requires Stopped(inst, s, h, inst', t, g, false, true) && t.power == Down && inst' == inst
    requires Stopped(inst', t, g, inst'', u, k, true, true)
    ensures u == t && k == g && inst'' == inst
    ensures u.cr.finalizers == s.cr.finalizers
  {}

  /** A clean-up without error deleted the listed data volumes or could not read the list. */
  predicate Progressed(before: CleanUps, after: CleanUps, ok: bool) {
    && (before.listUnread ==> after.listUnread) && (before.listRead ==> after.listRead)
    && after.createdAfter == before.createdAfter && after.unlisted == before.unlisted
    && (ok ==> after.listRead || after.listUnread)
  }

  /** No VM goes but the recorded target, whoever created it. */
  predicate TargetRemoved(s: Store, h: History, t: Store, g: History) {
    var target := s.cr.targetVMName;
    || (t.vms == s.vms && g.cleanup.own == h.cleanup.own && g.cleanup.stranger == h.cleanup.stranger)
    || (&& target != "" && target in s.vms && t.vms == s.vms - {target}
        && g.cleanup.own == Parted(h.cleanup, target).own
        && g.cleanup.stranger == Parted(h.cleanup, target).stranger)
  }

  /** The effect of CleanUp: the restore finalizer goes unless its removal fails; after a failure so
      do data volumes and the target VM, the latter for certain if there was no error. */
  ghost predicate CleanedUp(inst: Import, s: Store, h: History, inst': Import, t: Store, g: History, failure: bool,
                            ok: bool)
  {
    && inst' == inst.(finalizers := inst'.finalizers)
    && t == s.(cr := s.cr.(finalizers := inst'.finalizers), vms := t.vms, dvs := t.dvs)
    && (inst'.finalizers == inst.finalizers || inst'.finalizers == Without(inst.finalizers, RestoreVMState))
    && TargetRemoved(s, h, t, g) && t.dvs <= s.dvs
    && (!failure ==> t.vms == s.vms && t.dvs == s.dvs)
    && g == h.(sound := g.sound, cleanup := g.cleanup)
    && (!failure ==> g.cleanup == h.cleanup)
    && (failure ==> Progressed(h.cleanup, g.cleanup, ok) && g.cleanup.done == (h.cleanup.done || ok))
    && (g.sound ==> h.sound && RestoreVMState !in inst'.finalizers)
    && (ok && failure ==> t.cr.targetVMName !in t.vms)
    && (g.cleanup.listRead ==> ListedGone(t))
  }

  /** The effect of deleting what the import created. */
  ghost predicate Removed(s: Store, h: History, t: Store, g: History, ok: bool) {
    && t == s.(vms := t.vms, dvs := t.dvs) && TargetRemoved(s, h, t, g) && t.dvs <= s.dvs
    && g == h.(cleanup := g.cleanup) && Progressed(h.cleanup, g.cleanup, ok) && g.cleanup.done == h.cleanup.done
    && (ok ==> t.cr.targetVMName !in t.vms)
    && (g.cleanup.listRead ==> ListedGone(t))
  }

  /** The effect of asking for the source to be started: `up` is whether it is to be asked for at all. */
  ghost predicate GivenBack(s: Store, h: History, t: Store, g: History, up: bool) {
    && t == s.(power := t.power)
    && g == h.(asked := g.asked, sound := g.sound) && h.asked <= g.asked
    && (up || g.asked == h.asked)
    && (g.sound ==> h.sound && g.asked == h.asked + if up then 1 else 0)
  }

  lemma CleanedUpStep(inst: Import, s: Store, h: History, inst': Import, t: Store, g: History, u: Store, k: History,
                      removed: bool, done: bool)
    requires FinalizersWritten(inst, s, h, inst', t, g,
                               if RestoreVMState !in inst.finalizers then None
                               else Some(Without(inst.finalizers, RestoreVMState)), removed)
    requires inst.finalizers == s.cr.finalizers
    requires h.cleanup.listRead ==> ListedGone(s)
    ensures CleanedUp(inst, s, h, inst', t, g, false, done)
    ensures Removed(t, g, u, k, true) && done ==>
              CleanedUp(inst, s, h, inst', u, k.(cleanup := k.cleanup.(done := true)), true, true)
    ensures Removed(t, g, u, k, true) || Removed(t, g, u, k, false) ==> CleanedUp(inst, s, h, inst', u, k, true, false)
  {
    hide Progressed;
    SoProgressed(g.cleanup, k.cleanup);
  }

  lemma OnlyFinalizerGone(inst: Import, s: Store, h: History, inst': Import, t: Store, g: History,
                          fs: Option<seq<Finalizer>>, ok: bool)
    requires FinalizersWritten(inst, s, h, inst', t, g, fs, ok)
    requires h.cleanup.listRead ==> ListedGone(s)
    ensures t.vms == s.vms && t.dvs == s.dvs && (g.cleanup.listRead ==> ListedGone(t))
  {}

  lemma SoProgressed(before: CleanUps, after: CleanUps)
    ensures Progressed(before, after, true) ==>
              Progressed(before, after.(done := true), true) && Progressed(before, after, false)
  {}

  /** What deleting the data volumes leaves, as far as the list goes. */
  predicate VolumesRemoved(s: Store, h: History, t: Store, g: History, done: bool) {
    && t == s.(dvs := t.dvs) && t.dvs <= s.dvs
    && g == h.(cleanup := g.cleanup) && Progressed(h.cleanup, g.cleanup, done) && g.cleanup.done == h.cleanup.done
    && g.cleanup.own == h.cleanup.own && g.cleanup.stranger == h.cleanup.stranger
    && (g.cleanup.listRead ==> ListedGone(t))
  }

  lemma RemovedVolumes(s: Store, h: History, t: Store, g: History, read: bool, done: bool)
    requires t == s.(dvs := t.dvs) && t.dvs <= s.dvs && (done && read ==> ListedGone(t))
    requires h.cleanup.listRead ==> ListedGone(s)
    requires var read' := if done && read then h.cleanup.(listRead := true) else h.cleanup;
             g == h.(cleanup := if read then read' else read'.(listUnread := true))
    ensures VolumesRemoved(s, h, t, g, done)
  {}

  lemma RemovedBoth(s: Store, h: History, t: Store, g: History, u: Store, k: History, done: bool, deleted: bool)
    requires VolumesRemoved(s, h, t, g, done) && "" !in s.vms
    requires var target := t.cr.targetVMName;
             if deleted && target != ""
             then && target in t.vms && u == t.(vms := t.vms - {target})
                  && k == g.(cleanup := Parted(g.cleanup, target))
             else u == t && k == g
    ensures Removed(s, h, u, k, done && deleted)
    ensures k.cleanup.listUnread == g.cleanup.listUnread && k.calm == g.calm
  {}

  lemma OnlyDeletes(s: Store, answers: DataVolumes.Answers)
    requires "" !in s.dvs
    ensures var (ok, left) := DataVolumes.DeleteOutcome(s, answers);
            left <= s.dvs && (ok && answers.importRead ==> ListedGone(s.(dvs := left)))
  {
    DataVolumes.DeleteAllEffect(
      DataVolumes.FoundFor(s.cr.dataVolumes, s.dvs, answers.unreadable), s.dvs, answers.undeletable);
    if DataVolumes.DeleteOutcome(s, answers).0 && answers.importRead {
      DataVolumes.SuccessMeansGone(s, answers);
    }
  }

  class SourceProvider {
    const client: Client
    const vmware: bool
    const actions: Actions
    var vm: Option<Power>  // the cached source VM, of which only the power state matters

    constructor (client: Client, vmware: bool, actions: Actions)
      ensures this.client == client && this.vmware == vmware && this.actions == actions && vm.None?
    {
      this.client, this.vmware, this.actions, vm := client, vmware, actions, None;
    }

    /** The provider needs its secret, with the credentials in it. */
    method Init() returns (secret: Lookup, initialised: bool)
      modifies client`troubled, client.seen`ready
      ensures Accounted(old(client.troubled), client.troubled, client.seen.ready)
      ensures client.seen.ready <==> secret.Found? && initialised
    {
      initialised := true;
      secret := client.Look();
      if secret.Found? {
        initialised := client.Ask();
      }
      client.seen.ready := secret.Found? && initialised;
    }

    method TestConnection() returns (ok: bool)
      requires client.seen.ready
      modifies client`troubled, client.seen`connected
      ensures client.troubled == (old(client.troubled) || !ok)
      ensures client.seen.connected == ok
    {
      ok := client.Ask();
      client.seen.connected := ok;
    }

    method LoadVM() returns (ok: bool)
      requires client.seen.ready
      modifies this, client`troubled
      ensures client.troubled == (old(client.troubled) || !ok)
      ensures vm == if ok then Some(client.store.power) else old(vm)
    {
      ok := client.Ask();
      if ok {
        vm := Some(client.store.power);
      }
    }

    method GetVM() returns (ok: bool)
      requires client.seen.ready
      modifies this, client`troubled
      ensures client.troubled == (old(client.troubled) || !ok)
      ensures ok ==> vm == if old(vm).Some? then old(vm) else Some(client.store.power)
      ensures !ok ==> vm == old(vm)
      ensures old(vm).Some? ==> ok
    {
      ok := true;
      if vm.None? {
        ok := LoadVM();
      }
    }

    /** Fails only if the source cannot be read or is neither up nor down. */
    method GetVMStatus() returns (ok: bool, status: Power)
      requires client.seen.ready
      modifies this, client`troubled
      ensures old(vm).Some? ==> vm == old(vm) && client.troubled == old(client.troubled)
      ensures ok ==> vm == Some(status) && status != OtherPower
      ensures Accounted(old(client.troubled), client.troubled, ok || vm == Some(OtherPower))
    {
      status := Down;
      ok := GetVM();
      if ok {
        status := vm.value;
        ok := status != OtherPower;
      }
    }

    /** The conditions of a validation, and what the checks found. A VMware VM is not checked. */
    method Validate() returns (ok: bool, results: seq<Condition>, ghost findings: Findings)
      requires client.seen.ready
      modifies this, client`troubled
      ensures Accounted(old(client.troubled), client.troubled, ok)
      ensures old(vm).Some? ==> vm == old(vm)
      ensures ok ==>
                && |results| == 2
                && results[0].kind == Valid && results[1].kind == MappingRulesVerified
                && results[0].status == StatusFor(actions, findings.Mapping())
                && results[1].status == StatusFor(actions, findings.Rules())
      ensures vmware ==> findings.Mapping() + findings.Rules() == []
    {
      var now: Time := *;
      if vmware {
        findings := Findings(None, None, [], None, None);
        return true, [NewCondition(Valid, ValidationCompleted, "Validation completed successfully", True, now),
                      NewCondition(MappingRulesVerified, MappingRulesVerificationCompleted,
                                   "All mapping rules checks passed", True, now)], findings;
      }
      ok := GetVM();
      results := [];
      var found: Findings := *;
      findings := found;
      if ok {
        results := Validation.Validate(actions, found, now);
      }
    }

    /** A disk may have come into a state in which it cannot be imported. */
    method ValidateDiskStatus(name: string) returns (ok: bool, valid: bool)
      requires client.seen.ready
      modifies this, client`troubled, client.seen`bad, client.seen`fit
      ensures client.seen.fit == old(client.seen.fit) + if ok && valid then {name} else {}
      ensures Accounted(old(client.troubled), client.troubled, ok)
      ensures client.seen.bad == (old(client.seen.bad) || !valid)
      ensures vmware ==> ok && valid
    {
      ok, valid := true, true;
      if !vmware {
        ok := LoadVM();
        valid := *;
        client.seen.bad := client.seen.bad || !valid;
      }
      client.seen.fit := client.seen.fit + if ok && valid then {name} else {};
    }

    /** Stops the source unless it is down, and then records by a finalizer that it is to be started
        again. A failed stop may leave the source in any state. */
    method StopVM(instance: Snapshot) returns (ok: bool)
      requires client.seen.ready
      modifies this, instance, client
      ensures Stopped(old(instance.cr), old(client.store), old(client.hist), instance.cr, client.store, client.hist,
                      ok, old(vm.None? || vm.value == client.store.power))
      ensures Accounted(old(client.troubled), client.troubled, ok)
      ensures Untroubled(old(client.hist), client.hist, client.troubled)
    {
      ok := GetVM();
      if !ok {
        return;
      }
      if vm.value == Down {
        return true;
      }
      ok := client.Ask();
      if !ok {
        var power: Power := *;
        client.store := client.store.(power := power);
        client.hist := client.hist.(quiet := false);
        return;
      }
      client.store := client.store.(power := Down);
      ok := AddFinalizer(instance, RestoreVMState, client);
      client.hist := client.hist.(marked := client.hist.marked || ok);
    }

    /** Asks for the source to be started; a source that is not down stays as it is. */
    method StartVM() returns (e: Error)
      requires client.seen.ready
      modifies this, client
      ensures GivenBack(old(client.store), old(client.hist), client.store, client.hist, true)
      ensures client.store == if e == Fine && old(client.store).power == Down
                              then old(client.store).(power := Up) else old(client.store)
      ensures Accounted(old(client.troubled), client.troubled, e == Fine)
      ensures Untroubled(old(client.hist), client.hist, client.troubled)
    {
      var ok := GetVM();
      if !ok {
        client.hist := client.hist.(sound := false);
        return OtherError;
      }
      client.hist := client.hist.(asked := client.hist.asked + 1);
      ok := client.Ask();
      var locked: bool := *;
      e := if ok then Fine else if locked then Locked else OtherError;
      if e == Fine && client.store.power == Down {
        client.store := client.store.(power := Up);
      }
    }

    /** Deletes secrets and config maps and, after the success of a conversion, its job. */
    method DeleteHelpers(failure: bool) returns (ok: bool)
      modifies client`troubled
      ensures Accounted(old(client.troubled), client.troubled, ok)
    {
      var secrets := client.Ask();
      var configMaps := client.Ask();
      ok := secrets && configMaps;
      if vmware && !failure {
        var jobs := client.Ask();
        ok := ok && jobs;
      }
    }

    /** Removes what the import needed only for a while and, after a failure, what it created. */
    method CleanUp(failure: bool, instance: Snapshot) returns (ok: bool)
      requires "" !in client.store.dvs && "" !in client.store.vms
      requires client.hist.cleanup.listRead ==> ListedGone(client.store)
      requires instance.cr.finalizers == client.store.cr.finalizers
      modifies instance, client
      ensures CleanedUp(old(instance.cr), old(client.store), old(client.hist),
                        instance.cr, client.store, client.hist, failure, ok)
      ensures Accounted(old(client.troubled), client.troubled, ok)
      ensures Untroubled(old(client.hist), client.hist, client.troubled)
    {
      hide CleanedUp, Removed, FinalizersWritten, ListedGone, Untroubled;
      ghost var inst, s, h := instance.cr, client.store, client.hist;
      var removed := RemoveFinalizer(instance, RestoreVMState, client);
      ghost var t, g := client.store, client.hist;
      OnlyFinalizerGone(inst, s, h, instance.cr, t, g,
                        if RestoreVMState !in inst.finalizers then None
                        else Some(Without(inst.finalizers, RestoreVMState)), removed);
      ok := DeleteHelpers(failure);
      ok := ok && removed;
      if failure {
        ghost var before := client.troubled;
        var deleted := DeleteCreated();
        UntroubledMore(h, g, client.hist, before, client.troubled);
        ok := ok && deleted;
        CleanedUpStep(inst, s, h, instance.cr, t, g, client.store, client.hist, removed, ok);
        if ok {
          client.hist := client.hist.(cleanup := client.hist.cleanup.(done := true));
        }
      } else {
        UntroubledMore(h, g, g, client.troubled, client.troubled);
        CleanedUpStep(inst, s, h, instance.cr, t, g, t, g, removed, ok);
      }
    }

    /** Deletes the data volumes, and remembers whether the list of them was read. */
    method DeleteVolumes() returns (ok: bool)
      requires "" !in client.store.dvs
      requires client.hist.cleanup.listRead ==> ListedGone(client.store)
      modifies client
      ensures VolumesRemoved(old(client.store), old(client.hist), client.store, client.hist, ok)
      ensures Accounted(old(client.troubled), client.troubled, ok)
      ensures Untroubled(old(client.hist), client.hist, client.troubled)
    {
      hide DataVolumes.DeleteOutcome, ListedGone, VolumesRemoved;
      var answers: DataVolumes.Answers := *;
      ghost var s, h := client.store, client.hist;
      ok := DataVolumes.DeleteFor(client, answers);
      OnlyDeletes(s, answers);
      ghost var read := answers.importRead;
      ghost var cleanup := if ok && read then h.cleanup.(listRead := true) else h.cleanup;
      client.hist := h.(cleanup := if read then cleanup else cleanup.(listUnread := true));
      RemovedVolumes(s, h, client.store, client.hist, read, ok);
    }

    /** Deletes the data volumes and the VM of the import. */
    method DeleteCreated() returns (ok: bool)
      requires "" !in client.store.dvs && "" !in client.store.vms
      requires client.hist.cleanup.listRead ==> ListedGone(client.store)
      modifies client
      ensures Removed(old(client.store), old(client.hist), client.store, client.hist, ok)
      ensures Accounted(old(client.troubled), client.troubled, ok)
      ensures Untroubled(old(client.hist), client.hist, client.troubled)
    {
      hide Removed, VolumesRemoved, Parted;
      ghost var s, h := client.store, client.hist;
      var done := DeleteVolumes();
      ghost var t, g := client.store, client.hist;
      var deleted := VirtualMachines.DeleteFor(client);
      RemovedBoth(s, h, t, g, client.store, client.hist, done, deleted);
      ok := done && deleted;
    }

    /** The data volumes the mapper asks for: at least one, by whatever the source VM has. */
    method MapDataVolumes() returns (ok: bool, names: set<string>)
      requires client.seen.ready && client.seen.prepared
      modifies client`troubled, client.seen`mapped
      ensures names != {} && client.seen.mapped == names
      ensures client.troubled == (old(client.troubled) || !ok)
    {
      ok := client.Ask();
      names := *;
      if names == {} {
        names := {"disk"};
      }
      client.seen.mapped := names;
    }

    method GetGuestConversionJob() returns (ok: bool, job: Option<Job>)
      requires client.seen.ready
      modifies client`troubled, client.seen`job, client.seen`bad
      ensures ok ==> client.seen.job == job
      ensures client.troubled == (old(client.troubled) || !ok)
      ensures client.seen.bad == (old(client.seen.bad) || (job.Some? && job.value.failed > 0))
    {
      ok := client.Ask();
      job := *;
      client.seen.job := job;
      client.seen.bad := client.seen.bad || (job.Some? && job.value.failed > 0);
    }

    method LaunchGuestConversionJob() returns (ok: bool, job: Job)
      requires client.seen.ready
      modifies client`troubled, client.seen`job, client.seen`bad
      ensures ok ==> client.seen.job == Some(job)
      ensures client.troubled == (old(client.troubled) || !ok)
      ensures client.seen.bad == (old(client.seen.bad) || job.failed > 0)
    {
      ok := client.Ask();
      job := *;
      client.seen.job := Some(job);
      client.seen.bad := client.seen.bad || job.failed > 0;
    }
  }
}
