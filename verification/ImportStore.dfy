/** What one import reads and writes: its own object, the target VM and data volumes, and the
    power state of the source VM. Every call to the API server may fail. */
module ImportStore {
  import opened Wrappers
  import opened Conditions

  datatype Power = Up | Down | OtherPower

  datatype Finalizer = CancelledImport | RestoreVMState | Foreign(name: string)

  /** The VirtualMachineImport object. `initialState` and `progress` are its two annotations. */
  datatype Import = Import(
    conditions: seq<Condition>,
    progress: Option<int>,
    initialState: Option<Power>,
    finalizers: seq<Finalizer>,
    deleted: bool,
    targetVMName: string,
    dataVolumes: seq<string>)

  datatype Store = Store(cr: Import, vms: set<string>, dvs: set<string>, power: Power)

  /** What has happened so far, for stating properties of whole runs.
      `sound` holds as long as every write to the import was carried out, no provider or mapping lookup
      the outcome depends on failed after the first positive validation, and neither reading the
      recorded state nor loading the source to start it failed.
      `quiet` holds as long as no attempt to stop the source failed and nobody else changed the source's
      power or a finalizer. */
  datatype History = History(
    original: Power,          // the source's power before the import touched it
    sound: bool,
    quiet: bool,
    marked: bool,             // the restore finalizer has been written
    succeeded: nat,           // runs of afterSuccess
    failed: nat,              // runs of afterFailure
    asked: nat,               // requests to start the source
    cleanup: CleanUps)        // what failure clean-ups have done, and had to do
  {
    const calm: bool := sound && quiet
  }

  datatype CleanUps = CleanUps(
    done: bool,               // one has returned without error
    listRead: bool,           // one deleted every data volume on the list it had read
    listUnread: bool,         // one could not read the list, and dropped that error
    createdAfter: bool,       // a data volume was created after one was done
    unlisted: bool,           // a data volume was created and then not put on the list
    own: set<string>,         // the VMs that reconciles have created, while they are there
    stranger: bool)           // one deleted a VM that no reconcile had created

  function CreatedAgain(c: CleanUps): CleanUps {
    if c.done then c.(createdAfter := true) else c
  }

  function Adopted(c: CleanUps, name: string): CleanUps {
    c.(own := c.own + {name})
  }

  function Parted(c: CleanUps, name: string): CleanUps {
    c.(own := c.own - {name}, stranger := c.stranger || name !in c.own)
  }

  lemma UntroubledMore(h: History, g: History, k: History, before: bool, after: bool)
    requires Untroubled(h, g, before) && (g == k || Untroubled(g, k, after)) && (before ==> after)
    ensures Untroubled(h, h, before)
    ensures Untroubled(h, k, after) && Untroubled(h, k.(cleanup := k.cleanup.(done := true)), after)
  {}

  datatype Creation = Created | AlreadyExists | CreationFailed

  datatype Lookup = Found | NotFound | Unreadable

  /** The object a reconcile works on: a copy taken once, refreshed only in its finalizers. */
  class Snapshot {
    var cr: Import

    constructor (cr: Import)
      ensures this.cr == cr
    {
      this.cr := cr;
    }
  }

  /** The phases of a data volume that make a difference. */
  datatype Phase = Complete | FailedPhase | PendingPhase | ImportInProgress | OtherPhase

  datatype Job = Job(active: nat, failed: nat, succeeded: nat)

  /** The running copy of the target VM: whether there is one, and then whether it is up. */
  datatype Instance = Instance(found: Lookup, runs: bool)

  /** What there is of the target VM: a template for it, the VM made from that or, if that is allowed, from
      nothing, and in the end the source VM mapped onto it. */
  datatype Spec = NoSpec | Template | Processed | Empty | Denied(matched: bool) | Mapped

  /** What was read of the world during the current reconcile, written down where it is read. */
  class Observations {
    ghost var read: bool                  // the import was read
    ghost var missing: bool               // there is no import
    ghost var ready: bool                 // the provider was initialised
    ghost var connected: bool             // its connection was tried, and it holds
    ghost var prepared: bool              // the resource mapping was read
    ghost var spec: Spec
    ghost var mapped: set<string>
    ghost var phases: map<string, Phase>
    ghost var job: Option<Job>
    ghost var vmi: Option<Instance>
    ghost var fit: set<string>            // the disks that were found fit to be imported
    ghost var bad: bool                   // a data volume or a job has failed, a disk is not fit, or a pod crashes

    constructor ()
    {}

    /** A new reconcile has read nothing yet. */
    ghost method Forget()
      modifies this
      ensures !read && !missing && !ready && !connected && !prepared
      ensures mapped == {} && phases == map[] && job.None? && vmi.None? && fit == {} && !bad
    {
      read, missing, ready, connected, prepared := false, false, false, false, false;
      spec, mapped, phases, job, vmi, fit, bad := NoSpec, {}, map[], None, None, {}, false;
    }
  }

  /** Trouble is remembered, and there is no error without it. */
  predicate Accounted(before: bool, after: bool, ok: bool) {
    (before ==> after) && (ok || after)
  }

  /** Without trouble a run stays calm, and what is to be read for a clean-up is read. */
  predicate Untroubled(h: History, g: History, troubled: bool) {
    && (h.calm && !g.calm ==> troubled)
    && (g.cleanup.listUnread && !h.cleanup.listUnread ==> troubled)
  }

  class Client {
    var store: Store
    ghost var hist: History
    ghost var troubled: bool  // in the current reconcile some call has failed or not found what it was to find
    ghost var refused: bool   // in it, the import itself could not be read again or written
    const seen: Observations

    constructor (store: Store, ghost hist: History)
      ensures this.store == store && this.hist == hist && fresh(seen)
    {
      this.store, this.hist := store, hist;
      seen := new Observations();
    }

    /** A reconcile begins. */
    ghost method Begin()
      modifies this`troubled, this`refused, seen
      ensures !troubled && !refused
      ensures !seen.read && !seen.missing && seen.mapped == {} && seen.phases == map[]
      ensures seen.job.None? && seen.vmi.None? && seen.fit == {} && !seen.bad
    {
      troubled, refused := false, false;
      seen.Forget();
    }

    /** Any call that succeeds or fails and is not modelled further. */
    method Ask() returns (ok: bool)
      modifies this`troubled
      ensures troubled == (old(troubled) || !ok)
    {
      ok := *;
      troubled := troubled || !ok;
    }

    /** An object that is there, is not, or cannot be read. */
    method Look() returns (found: Lookup)
      modifies this`troubled
      ensures troubled == (old(troubled) || !found.Found?)
    {
      found := *;
      troubled := troubled || !found.Found?;
    }

    method FindMapping() returns (found: Lookup)
      modifies this`troubled, seen`prepared
      ensures troubled == (old(troubled) || !found.Found?) && seen.prepared == found.Found?
    {
      found := Look();
      seen.prepared := found.Found?;
    }

    method FindImport() returns (found: Lookup, cr: Import)
      modifies this`troubled, seen`read, seen`missing
      ensures cr == store.cr && troubled == (old(troubled) || found.Unreadable?)
      ensures seen.read == found.Found? && seen.missing == found.NotFound?
    {
      found, cr := *, store.cr;
      troubled := troubled || found.Unreadable?;
      seen.read, seen.missing := found.Found?, found.NotFound?;
    }

    method GetImport() returns (ok: bool, cr: Import)
      modifies this`troubled, this`refused
      ensures cr == store.cr && troubled == (old(troubled) || !ok) && refused == (old(refused) || !ok)
    {
      cr := store.cr;
      ok := Ask();
      refused := refused || !ok;
    }

    /** The annotation that has to be there. */
    method GetInitialState(cr: Import) returns (state: Option<Power>)
      modifies this`troubled
      ensures state == cr.initialState && troubled == (old(troubled) || state.None?)
    {
      state := cr.initialState;
      troubled := troubled || state.None?;
    }

    /** A patch or update of the import: all of it happens, or none. */
    method WriteImport(cr: Import) returns (ok: bool)
      modifies this
      ensures store == if ok then old(store).(cr := cr) else old(store)
      ensures hist == old(hist).(sound := old(hist).sound && ok)
      ensures troubled == (old(troubled) || !ok) && refused == (old(refused) || !ok)
    {
      ok := Ask();
      if ok {
        store := store.(cr := cr);
      }
      hist := hist.(sound := hist.sound && ok);
      refused := refused || !ok;
    }

    method GetVM(name: string) returns (ok: bool)
      modifies this`troubled
      ensures ok ==> name in store.vms
      ensures troubled == (old(troubled) || !ok)
    {
      ok := Ask();
      ok := ok && name in store.vms;
      troubled := troubled || !ok;
    }

    method FindTemplate() returns (found: bool)
      modifies this`troubled, seen`spec
      ensures seen.spec == if found then Template else NoSpec
      ensures troubled == (old(troubled) || !found)
    {
      found := Ask();
      seen.spec := if found then Template else NoSpec;
    }

    method ProcessTemplate() returns (ok: bool)
      requires seen.spec == Template
      modifies this`troubled, seen`spec
      ensures seen.spec == if ok then Processed else Template
      ensures troubled == (old(troubled) || !ok)
    {
      ok := Ask();
      seen.spec := if ok then Processed else Template;
    }

    /** The cluster may be set up for VMs without a template. */
    method CreateEmptyVM() returns (allowed: bool)
      modifies seen`spec
      ensures seen.spec == if allowed then Empty else Denied(old(seen.spec).Template?)
    {
      allowed := *;
      seen.spec := if allowed then Empty else Denied(seen.spec.Template?);
    }

    method MapVM() returns (ok: bool)
      requires seen.spec.Processed? || seen.spec.Empty?
      modifies this`troubled, seen`spec
      ensures seen.spec == if ok then Mapped else old(seen.spec)
      ensures troubled == (old(troubled) || !ok)
    {
      ok := Ask();
      seen.spec := if ok then Mapped else seen.spec;
    }

    /** An empty name asks the server to generate one. */
    method CreateVM(name: string) returns (result: Creation, created: string)
      requires "" !in store.vms && seen.spec == Mapped
      modifies this
      ensures result.Created? ==>
                && created != "" && created !in old(store).vms && (name != "" ==> created == name)
                && store == old(store).(vms := old(store).vms + {created})
                && hist == old(hist).(cleanup := Adopted(old(hist).cleanup, created))
      ensures !result.Created? ==> created == name && store == old(store) && hist == old(hist)
      ensures result.AlreadyExists? ==> name == "" || name in store.vms
      ensures troubled == (old(troubled) || result.CreationFailed?)
    {
      var answered: bool := *;
      created := name;
      if name == "" {
        created := *;
      }
      if !answered || created == "" {
        troubled := true;
        return CreationFailed, name;
      }
      if created in store.vms {
        return AlreadyExists, name;
      }
      result := Created;
      store := store.(vms := store.vms + {created});
      hist := hist.(cleanup := Adopted(hist.cleanup, created));
    }

    method DeleteVM(name: string) returns (ok: bool)
      modifies this
      ensures ok ==> name in old(store).vms
      ensures store == if ok then old(store).(vms := old(store).vms - {name}) else old(store)
      ensures hist == if ok then old(hist).(cleanup := Parted(old(hist).cleanup, name)) else old(hist)
      ensures troubled == (old(troubled) || !ok)
    {
      ok := Ask();
      ok := ok && name in store.vms;
      troubled := troubled || !ok;
      if ok {
        store := store.(vms := store.vms - {name});
        hist := hist.(cleanup := Parted(hist.cleanup, name));
      }
    }

    method GetDataVolume(name: string) returns (found: Lookup, phase: Phase)
      modifies this`troubled, seen`phases, seen`bad
      ensures found.Found? ==> name in store.dvs && seen.phases == old(seen.phases)[name := phase]
      ensures !found.Found? ==> seen.phases == old(seen.phases)
      ensures found.NotFound? ==> name !in store.dvs
      ensures seen.bad == (old(seen.bad) || (found.Found? && phase == FailedPhase))
      ensures troubled == (old(troubled) || found.Unreadable?)
    {
      var readable: bool := *;
      phase := *;
      found := if !readable then Unreadable else if name in store.dvs then Found else NotFound;
      if found.Found? {
        seen.phases := seen.phases[name := phase];
        seen.bad := seen.bad || phase == FailedPhase;
      }
      troubled := troubled || found.Unreadable?;
    }

    /** Which containers of a pod keep crashing; a pod that cannot be read has none. */
    method GetPod() returns (crashes: seq<bool>)
      modifies seen`bad
      ensures seen.bad == (old(seen.bad) || true in crashes)
    {
      crashes := *;
      seen.bad := seen.bad || true in crashes;
    }

    method GetVMI() returns (vmi: Instance)
      modifies this`troubled, seen`vmi
      ensures seen.vmi == Some(vmi) && troubled == (old(troubled) || vmi.found.Unreadable?)
    {
      vmi := *;
      seen.vmi := Some(vmi);
      troubled := troubled || vmi.found.Unreadable?;
    }

    /** A data volume may be created only for a disk that was found fit before. */
    method CreateDataVolume(name: string) returns (ok: bool)
      requires name in seen.fit
      modifies this
      ensures ok ==> name != ""
      ensures store == if ok then old(store).(dvs := old(store).dvs + {name}) else old(store)
      ensures hist == if ok then old(hist).(cleanup := CreatedAgain(old(hist).cleanup))
                      else old(hist)
      ensures troubled == (old(troubled) || !ok)
    {
      ok := Ask();
      ok := ok && name != "";
      troubled := troubled || !ok;
      if ok {
        store := store.(dvs := store.dvs + {name});
        hist := hist.(cleanup := CreatedAgain(hist.cleanup));
      }
    }
  }

  // ---------------------------------------------------------------------------------------------
  // Finalizers (pkg/utils/utils.go)

  function Without(fs: seq<Finalizer>, f: Finalizer): (r: seq<Finalizer>)
    ensures f !in r
    ensures forall g | g != f :: g in r <==> g in fs
  {
    if fs == [] then []
    else if fs[0] == f then Without(fs[1..], f)
    else
      assert forall g :: g in fs <==> g == fs[0] || g in fs[1..];
      [fs[0]] + Without(fs[1..], f)
  }

  lemma {:induction false} WithoutAbsent(fs: seq<Finalizer>, f: Finalizer)
    requires f !in fs
    ensures Without(fs, f) == fs
  {
    if fs != [] {
      WithoutAbsent(fs[1..], f);
      assert fs == [fs[0]] + fs[1..];
    }
  }

  /** Removing what was just added gives the old list back. */
  lemma {:induction false} AddThenRemove(fs: seq<Finalizer>, f: Finalizer)
    requires f !in fs
    ensures Without(fs + [f], f) == fs
  {
    if fs == [] {
      assert fs + [f] == [f];
    } else {
      assert (fs + [f])[1..] == fs[1..] + [f];
      AddThenRemove(fs[1..], f);
    }
  }

  method Filter(finalizers: seq<Finalizer>, f: Finalizer) returns (fs: seq<Finalizer>)
    ensures fs == Without(finalizers, f)
  {
    fs := [];
    for i := 0 to |finalizers|
      invariant fs + Without(finalizers[i..], f) == Without(finalizers, f)
    {
      assert finalizers[i..][1..] == finalizers[i + 1..];
      if finalizers[i] != f {
        fs := fs + [finalizers[i]];
      }
    }
  }

  /** The effect of writing a list of finalizers, or of having nothing to write. The snapshot's list
      is replaced by the written one, so the two stay equal. */
  ghost predicate FinalizersWritten(
    inst: Import, s: Store, h: History, inst': Import, t: Store, g: History, fs: Option<seq<Finalizer>>, ok: bool)
  {
    if fs.None? then ok && inst' == inst && t == s && g == h
    else
      && g == h.(sound := h.sound && ok)
      && inst' == (if ok then inst.(finalizers := fs.value) else inst)
      && t == (if ok then s.(cr := s.cr.(finalizers := fs.value)) else s)
  }

  method AddFinalizer(instance: Snapshot, f: Finalizer, client: Client) returns (ok: bool)
    modifies instance, client
    ensures FinalizersWritten(old(instance.cr), old(client.store), old(client.hist),
                              instance.cr, client.store, client.hist,
                              if f in old(instance.cr.finalizers) then None
                              else Some(old(instance.cr.finalizers) + [f]), ok)
    ensures Untroubled(old(client.hist), client.hist, client.troubled)
    ensures client.troubled == (old(client.troubled) || !ok)
  {
    if f in instance.cr.finalizers {
      return true;
    }
    var fs := instance.cr.finalizers + [f];
    ok := client.WriteImport(client.store.cr.(finalizers := fs));
    if ok {
      instance.cr := instance.cr.(finalizers := fs);
    }
  }

  method RemoveFinalizer(instance: Snapshot, f: Finalizer, client: Client) returns (ok: bool)
    modifies instance, client
    ensures FinalizersWritten(old(instance.cr), old(client.store), old(client.hist),
                              instance.cr, client.store, client.hist,
                              if f !in old(instance.cr.finalizers) then None
                              else Some(Without(old(instance.cr.finalizers), f)), ok)
    ensures Untroubled(old(client.hist), client.hist, client.troubled)
    ensures client.troubled == (old(client.troubled) || !ok)
  {
    if f !in instance.cr.finalizers {
      return true;
    }
    var fs := Filter(instance.cr.finalizers, f);
    ok := client.WriteImport(client.store.cr.(finalizers := fs));
    if ok {
      instance.cr := instance.cr.(finalizers := fs);
    }
  }
}
