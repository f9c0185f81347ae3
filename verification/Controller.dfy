/** The controller that drives one import:
    pkg/controller/virtualmachineimport/virtualmachineimport_controller.go. */
module Controller {
  import opened Wrappers
  import opened Conditions
  import opened ImportStore
  import opened ImportState
  import opened Validation
  import opened Provider
  import opened Progress

  datatype Reply = Finished | RequeueAfter(seconds: nat) | ReconcileError

  const REQUEUE_AFTER_VALIDATION_FAILURE := 5
  const REQUEUE_WHILE_LOCKED := 1

  /** A reconcile asks to be run again soon only for an import that is not valid, and for a deleted one
      whose source is still to be given back. */
  predicate RequeuesFor(reply: Reply, cr: Import) {
    && (reply == RequeueAfter(5) ==> !Positive(cr))
    && (reply == RequeueAfter(1) ==> cr.deleted && RestoreVMState in cr.finalizers)
    && (reply.RequeueAfter? ==> reply.seconds == 5 || reply.seconds == 1)
  }

  /** All mapped disks were found complete and, where it is needed, so was the guest conversion. */
  ghost predicate Evidence(seen: Observations, conversion: bool)
    reads seen
  {
    && AllComplete(seen)
    && (conversion ==> seen.job.Some? && seen.job.value.active == 0 && seen.job.value.failed == 0
                       && seen.job.value.succeeded > 0)
  }

  ghost predicate AllComplete(seen: Observations)
    reads seen
  {
    seen.mapped != {} && forall d | d in seen.mapped :: d in seen.phases && seen.phases[d] == Complete
  }

  /** Every mapped disk whose data volume was there has been looked at. */
  ghost predicate Looked(seen: Observations, dvs: set<string>)
    reads seen
  {
    seen.mapped != {} && forall d | d in seen.mapped && d in dvs :: d in seen.phases
  }

  /** What was found out about the VM to be started has been acted on. */
  ghost predicate StartFollows(seen: Observations, cr: Import)
    reads seen
  {
    && seen.vmi.Some?
    && (OutcomeOf(cr) == Running <==> seen.vmi.value.found.Found? && seen.vmi.value.runs)
    && (seen.vmi.value.found.NotFound? ==> AtLeast(cr.progress, 90))
  }

  /** An import fails only if something went wrong or was found to be bad. */
  predicate Blamed(before: Import, after: Import, troubled: bool, bad: bool) {
    OutcomeOf(after) == Failed && OutcomeOf(before) != Failed ==> troubled || bad
  }

  lemma BlamedMore(a: Import, b: Import, c: Import, troubled: bool, bad: bool, troubled': bool, bad': bool)
    requires Blamed(a, b, troubled, bad) && Blamed(b, c, troubled', bad')
    requires (troubled ==> troubled') && (bad ==> bad')
    ensures Blamed(a, c, troubled', bad')
  {
    hide OutcomeOf;
  }

  /** What a reconcile without an error leaves of an import that was to be worked on: an undecided one is
      ready exactly if there is evidence, which has been looked for unless the import failed; one that was
      ready has had its VM seen to. */
  ghost predicate Told(s: Store, t: Store, seen: Observations, conversion: bool)
    reads seen
  {
    && (OutcomeOf(s.cr) == Undecided ==>
          && (OutcomeOf(t.cr) == Ready <==> Evidence(seen, conversion))
          && (OutcomeOf(t.cr) != Failed ==> Looked(seen, s.dvs)))
    && (OutcomeOf(s.cr) == Ready ==> StartFollows(seen, t.cr))
  }

  lemma Calm(s: Store, h: History, troubled: bool, bad: bool)
    ensures Untroubled(h, h, troubled) && Blamed(s.cr, s.cr, troubled, bad)
  {}

  lemma NothingSeen(seen: Observations, conversion: bool)
    requires seen.mapped == {}
    ensures !Evidence(seen, conversion)
  {}

  lemma StillThere(s: Store, h: History, t: Store, g: History)
    requires Carried(s, h, t, g)
    ensures OutcomeOf(s.cr) == Failed ==> OutcomeOf(t.cr) == Failed
    ensures OutcomeOf(t.cr) != Failed ==> s.dvs <= t.dvs
  {}

  // ---------------------------------------------------------------------------------------------
  // The stage of a reconcile between stopping the source and deciding the import

  /** Progress differs from the snapshot's only if it was raised above it. */
  predicate Advanced(before: Option<int>, after: Option<int>) {
    after == before || (after.Some? && before.GetOr(0) < after.value)
  }

  /** What is kept in this stage whoever else touches the source or the finalizers. */
  predicate SoundlyKept(s: Store, h: History, settled: bool) {
    && Positive(s.cr) && s.cr.initialState.Some?
    && (h.asked > 0 ==> MeantToBeUp(s.cr))
    && (RestoreVMState in s.cr.finalizers ==> h.marked)
    && (OutcomeOf(s.cr) == Failed && settled ==> h.failed > 0 && (h.asked > 0 <==> MeantToBeUp(s.cr)))
    && (OutcomeOf(s.cr) == Undecided && RestoreVMState !in s.cr.finalizers ==>
          (h.asked > 0 <==> h.marked && MeantToBeUp(s.cr)))
  }

  /** `settled`: the source has been given back, or there is nothing to give back yet. */
  ghost predicate Importing(inst: Import, s: Store, h: History, settled: bool) {
    && inst.finalizers == s.cr.finalizers
    && Unique(inst.conditions) && OutcomeOf(inst) == Undecided
    && (inst.progress.Some? ==> 0 <= inst.progress.value)
    && Advanced(inst.progress, s.cr.progress)
    && Coherent(s)
    && !Succeeding(OutcomeOf(s.cr))
    && h.succeeded == 0
    && (h.failed > 0 ==> OutcomeOf(s.cr) == Failed)
    && (h.cleanup.done ==> h.failed > 0 && s.cr.targetVMName !in s.vms)
    && CleanedUpWell(s, h)
    && (h.sound ==> SoundlyKept(s, h, settled))
    && (h.calm ==>
          && OwnFinalizersOnly(s.cr) && !s.cr.deleted && Positive(s.cr) && Recorded(s, h) && Marked(s, h)
          && (settled && h.failed > 0 ==> RestoreVMState !in s.cr.finalizers)
          && (OutcomeOf(s.cr) == Undecided ==> Held(s, h))
          && (OutcomeOf(s.cr) == Failed ==> Restored(h) || (!settled && Held(s, h))))
  }

  /** A failed import whose source may still have to be given back. */
  ghost predicate Given(s: Store, h: History) {
    && OwnFinalizersOnly(s.cr) && !s.cr.deleted && Positive(s.cr) && Recorded(s, h) && Marked(s, h)
    && RestoreVMState !in s.cr.finalizers
    && (Restored(h) || h.asked == 0)
  }

  /** The import goes on after a failure only when the failure has been cleaned up. */
  predicate Going(s: Store, h: History) {
    OutcomeOf(s.cr) == Failed ==> h.cleanup.done
  }

  lemma SameConditions(a: Import, b: Import)
    requires a.conditions == b.conditions
    ensures OutcomeOf(a) == OutcomeOf(b) && Positive(a) == Positive(b)
  {}

  /** What every step of that stage keeps. */
  ghost predicate Carried(s: Store, h: History, t: Store, g: History) {
    && (s.cr.targetVMName != "" ==> t.cr.targetVMName == s.cr.targetVMName)
    && t.cr.deleted == s.cr.deleted
    && (OutcomeOf(s.cr) == Failed ==> OutcomeOf(t.cr) == Failed)
    && (OutcomeOf(t.cr) != Failed ==> s.dvs <= t.dvs)
    && (h.cleanup.done ==> g.cleanup.done && t.dvs <= s.dvs)
    && (h.cleanup.listUnread ==> g.cleanup.listUnread) && (h.cleanup.unlisted ==> g.cleanup.unlisted)
    && (h.cleanup.done ==> t.vms <= s.vms && t.cr.targetVMName == s.cr.targetVMName)
    && OwnKept(s, h, t, g)
    && (g.sound ==> h.sound) && (g.quiet ==> h.quiet) && (h.marked ==> g.marked)
    && g.original == h.original
    && t.cr.initialState == s.cr.initialState
    && h.failed <= g.failed && h.asked <= g.asked
  }

  /** What a failure step does besides: it creates nothing. */
  ghost predicate OnlyRemoved(s: Store, t: Store) {
    && t.cr.targetVMName == s.cr.targetVMName
    && t.cr.dataVolumes == s.cr.dataVolumes
    && t.vms <= s.vms && t.dvs <= s.dvs
  }

  /** Of the snapshot nothing but the finalizers is ever refreshed. */
  predicate OnlyFinalizers(before: Import, after: Import) {
    after == before.(finalizers := after.finalizers)
  }

  lemma OnlyFinalizersRefl(a: Import)
    ensures OnlyFinalizers(a, a)
  {}

  lemma OnlyFinalizersTrans(a: Import, b: Import, c: Import)
    requires OnlyFinalizers(a, b) && OnlyFinalizers(b, c)
    ensures OnlyFinalizers(a, c)
  {}

  lemma Refl(s: Store, h: History)
    ensures Carried(s, h, s, h) && OnlyRemoved(s, s)
  {}

  lemma Trans(s: Store, h: History, t: Store, g: History, u: Store, k: History)
    requires Carried(s, h, t, g) && Carried(t, g, u, k)
    ensures Carried(s, h, u, k)
    ensures OnlyRemoved(s, t) && OnlyRemoved(t, u) ==> OnlyRemoved(s, u)
  {
    hide OwnKept, OutcomeOf;
    OwnTrans(s, h, t, g, u, k);
  }

  lemma ImportingMeans(inst: Import, s: Store, h: History, settled: bool)
    requires Importing(inst, s, h, settled)
    ensures Unique(s.cr.conditions) && inst.finalizers == s.cr.finalizers
    ensures OutcomeOf(s.cr) == Undecided || OutcomeOf(s.cr) == Failed
    ensures "" !in s.vms && "" !in s.dvs
    ensures h.cleanup.done ==> s.cr.targetVMName !in s.vms && h.failed > 0
    ensures h.failed > 0 ==> OutcomeOf(s.cr) == Failed
    ensures !h.sound || OutcomeOf(s.cr) == Undecided ==> Importing(inst, s, h, true)
  {}

  // ---------------------------------------------------------------------------------------------
  // The end of a successful import

  /** The import has succeeded, but what it needed only for a while may still be there. `most` bounds
      how often the end of a success has been run. */
  ghost predicate Won(inst: Import, s: Store, h: History, startVM: bool, most: nat) {
    && inst.finalizers == s.cr.finalizers
    && Advanced(inst.progress, s.cr.progress) && (inst.progress.Some? ==> 0 <= inst.progress.value)
    && Coherent(s) && Succeeding(OutcomeOf(s.cr))
    && (OutcomeOf(s.cr) == Running ==> startVM)
    && s.cr.progress.Some? && s.cr.targetVMName != ""
    && h.failed == 0 && !h.cleanup.done && !h.cleanup.listRead && CleanedUpWell(s, h)
    && h.succeeded <= most <= (if OutcomeOf(s.cr) == Running then 2 else 1)
    && (h.succeeded > 0 ==> s.cr.progress == Some(PROGRESS_DONE))
    && (h.sound ==>
          && Positive(s.cr) && s.cr.initialState.Some?
          && (h.asked > 0 ==> MeantToBeUp(s.cr))
          && (RestoreVMState in s.cr.finalizers ==> h.marked))
    && (h.calm ==>
          && OwnFinalizersOnly(s.cr) && Positive(s.cr) && Recorded(s, h) && Marked(s, h)
          && h.asked == 0 && s.power == Down)
  }

  ghost predicate Released(s: Store, h: History) {
    h.calm ==> RestoreVMState !in s.cr.finalizers
  }

  /** Writing the condition of success at the end of the importing stage. */
  lemma ReadyStep(inst: Import, s: Store, h: History, t: Store, g: History, startVM: bool, ok: bool)
    requires Importing(inst, s, h, true) && OutcomeOf(s.cr) == Undecided
    requires s.cr.progress.Some? && s.cr.targetVMName != ""
    requires ConditionsWritten(s, h, t, g, ok)
    requires Positive(t.cr) == Positive(s.cr) && (ok ==> OutcomeOf(t.cr) == Ready)
    ensures ok ==> Won(inst, t, g, startVM, 0) && g.succeeded == 0
    ensures !ok ==> Importing(inst, t, g, true)
    ensures Carried(s, h, t, g)
    ensures g.succeeded == h.succeeded
  {
    OwnSame(s, h, t, g);
    hide OwnKept, OutcomeOf, Positive;
  }

  /** Writing that the started VM is running. */
  lemma RunningStep(inst: Import, s: Store, h: History, t: Store, g: History, ok: bool)
    requires Won(inst, s, h, true, 1) && Released(s, h) && OutcomeOf(s.cr) == Ready
    requires ConditionsWritten(s, h, t, g, ok)
    requires Positive(t.cr) == Positive(s.cr) && (ok ==> OutcomeOf(t.cr) == Running)
    ensures Won(inst, t, g, true, 1) && Released(t, g)
    ensures Carried(s, h, t, g) && g.succeeded == h.succeeded
  {
    OwnSame(s, h, t, g);
    hide OwnKept, OutcomeOf, Positive;
  }

  lemma WonProgress(inst: Import, s: Store, h: History, t: Store, g: History, progress: int, startVM: bool, most: nat,
                    ok: bool)
    requires Won(inst, s, h, startVM, most)
    requires progress <= 100 && ProgressWritten(inst, s, h, t, g, progress, ok)
    requires h.succeeded > 0 ==> inst.progress == Some(PROGRESS_DONE)
    ensures Won(inst, t, g, startVM, most) && Carried(s, h, t, g)
    ensures Released(s, h) || !ok ==> Released(t, g)
    ensures g.succeeded == h.succeeded && OutcomeOf(t.cr) == OutcomeOf(s.cr)
    ensures ok && progress == PROGRESS_DONE ==> t.cr.progress == Some(PROGRESS_DONE)
    ensures g.sound ==> ok
    ensures ok && 0 < progress ==> AtLeast(t.cr.progress, progress)
  {
    OwnSame(s, h, t, g);
    SameConditions(s.cr, t.cr);
    hide OwnKept, OutcomeOf, Positive;
  }

  lemma SuccessCounted(inst: Import, s: Store, h: History, inst': Import, t: Store, h': History, g: History,
                       startVM: bool, most: nat, ok: bool)
    requires Won(inst, s, h, startVM, most) && most < (if OutcomeOf(s.cr) == Running then 2 else 1)
    requires FinalizersWritten(inst, s, h, inst', t, h',
                               if CancelledImport !in inst.finalizers then None
                               else Some(Without(inst.finalizers, CancelledImport)), ok)
    requires g == h'.(succeeded := h'.succeeded + 1) && s.cr.progress == Some(PROGRESS_DONE)
    ensures Won(inst', t, g, startVM, most + 1) && Carried(s, h, t, g)
    ensures OutcomeOf(t.cr) == OutcomeOf(s.cr)
    ensures OnlyFinalizers(inst, inst') && g.succeeded == h.succeeded + 1
  {
    OwnSame(s, h, t, g);
    SameConditions(s.cr, t.cr);
    hide OwnKept, OutcomeOf, Positive;
  }

  lemma SuccessCleaned(inst: Import, s: Store, h: History, inst': Import, t: Store, g: History, startVM: bool,
                       most: nat, ok: bool)
    requires Won(inst, s, h, startVM, most)
    requires CleanedUp(inst, s, h, inst', t, g, false, ok)
    ensures Won(inst', t, g, startVM, most) && Released(t, g) && Carried(s, h, t, g)
    ensures g.succeeded == h.succeeded && OutcomeOf(t.cr) == OutcomeOf(s.cr)
    ensures OnlyFinalizers(inst, inst')
  {
    OwnSame(s, h, t, g);
    SameConditions(s.cr, t.cr);
    hide OwnKept, OutcomeOf, Positive;
  }

  lemma WonMeans(inst: Import, s: Store, h: History, startVM: bool, most: nat)
    requires Won(inst, s, h, startVM, most)
    ensures Unique(s.cr.conditions) && inst.finalizers == s.cr.finalizers
    ensures "" !in s.dvs && "" !in s.vms && !h.cleanup.listRead
  {}

  // ---------------------------------------------------------------------------------------------
  // Before the source is stopped

  /** Nothing has been written in this reconcile but the import's own finalizers. */
  predicate Fresh(inst: Import, s: Store) {
    inst == s.cr
  }

  /** A failed lookup makes the import not valid; the run was sound only if it had not been valid. */
  lemma InvalidStep(s: Store, h: History, t: Store, g: History, startVM: bool, ok: bool)
    requires Inv(s, h, startVM)
    requires ConditionsWritten(s, h, t, g, ok)
    requires OutcomeOf(t.cr) == OutcomeOf(s.cr)
    requires Positive(t.cr) ==> Positive(s.cr)
    requires g.sound ==> !Positive(s.cr)
    ensures Inv(t, g, startVM) && Reconciled(s, h, t, g)
  {
    OwnSame(s, h, t, g);
    hide OwnKept, OutcomeOf, Positive;
  }

  lemma LookupFailedStep(s: Store, h: History, g: History, startVM: bool)
    requires Inv(s, h, startVM) && g == h.(sound := g.sound) && (g.sound ==> h.sound)
    ensures Inv(s, g, startVM) && Reconciled(s, h, s, g)
  {}

  lemma ReconciledTrans(s: Store, h: History, t: Store, g: History, u: Store, k: History)
    requires Reconciled(s, h, t, g) && Reconciled(t, g, u, k)
    ensures Reconciled(s, h, u, k)
  {
    hide OwnKept, OutcomeOf, Positive;
    OwnTrans(s, h, t, g, u, k);
  }

  /** An import that is not in progress can still fail for want of a provider. */
  lemma FailNewStep(s: Store, h: History, t: Store, g: History, startVM: bool, ok: bool)
    requires Inv(s, h, startVM) && s.cr.progress.None?
    requires ConditionsWritten(s, h, t, g, ok)
    requires ok ==> OutcomeOf(t.cr) == Failed
    requires Positive(t.cr) == Positive(s.cr)
    requires g.sound ==> !Positive(s.cr)
    ensures Inv(t, g, startVM) && Reconciled(s, h, t, g)
  {
    OwnSame(s, h, t, g);
    hide OwnKept, OutcomeOf, Positive;
  }

  /** The import's own finalizers come and go without consequence, except the one for the source. */
  lemma CancelFinalizerStep(inst: Import, s: Store, h: History, inst': Import, t: Store, g: History, startVM: bool,
                            fs: Option<seq<Finalizer>>, ok: bool)
    requires Fresh(inst, s) && Inv(s, h, startVM)
    requires FinalizersWritten(inst, s, h, inst', t, g, fs, ok)
    requires fs.Some? ==> forall f | f != CancelledImport :: f in fs.value <==> f in inst.finalizers
    requires fs.Some? ==> if CancelledImport in fs.value then s.cr.progress.None? else s.cr.deleted
    ensures Fresh(inst', t) && Inv(t, g, startVM) && Reconciled(s, h, t, g)
    ensures t == s.(cr := t.cr) && OnlyFinalizers(inst, inst') && SourceKept(s, t) && LeftAlone(s, h, t, g)
    ensures (fs.Some? && ok ==> inst'.finalizers == fs.value) && (fs.None? ==> ok && inst' == inst)
    ensures !ok ==> !g.sound && inst' == inst
    ensures g == h.(sound := g.sound)
  {
    OwnSame(s, h, t, g);
    SameConditions(s.cr, t.cr);
    hide OwnKept, OutcomeOf, Positive;
  }

  /** Recording the source's power after the first positive validation. */
  lemma ValidatedStep(s: Store, h: History, t: Store, g: History, u: Store, k: History, status: Power, startVM: bool,
                      ok: bool)
    requires Inv(s, h, startVM) && OutcomeOf(s.cr) != Failed
    requires ConditionsWritten(s, h, t, g, true)
    requires OutcomeOf(t.cr) == OutcomeOf(s.cr) && Positive(t.cr) && !Positive(s.cr)
    requires status == s.power && status != OtherPower
    requires u == if ok then t.(cr := t.cr.(initialState := Some(status))) else t
    requires k == g.(sound := g.sound && ok)
    ensures Inv(u, k, startVM) && Reconciled(s, h, u, k)
    ensures OutcomeOf(u.cr) == OutcomeOf(s.cr) && Positive(u.cr) && u.power == s.power
    ensures Ahead(s.cr, u)
  {}

  /** Stopping the source takes an undecided import into the importing stage. */
  lemma StopStep(inst: Import, s: Store, h: History, inst': Import, t: Store, g: History, startVM: bool, ok: bool)
    requires Inv(s, h, startVM)
    requires OutcomeOf(s.cr) == Undecided
    requires Ahead(inst, s) && OutcomeOf(inst) == Undecided
    requires Positive(s.cr) && (h.calm ==> !s.cr.deleted)
    requires h.calm && s.cr.progress.None? ==> CancelledImport in s.cr.finalizers
    requires Stopped(inst, s, h, inst', t, g, ok, true)
    ensures ok ==> Importing(inst', t, g, true)
    ensures Inv(t, g, startVM) && Reconciled(s, h, t, g) && Carried(s, h, t, g)
    ensures t.cr.targetVMName == s.cr.targetVMName && t.cr.progress == s.cr.progress && OutcomeOf(t.cr) == Undecided
    ensures SameRecord(s, t)
    ensures OnlyFinalizers(inst, inst')
  {
    OwnSame(s, h, t, g);
    SameConditions(s.cr, t.cr);
    hide OwnKept, OutcomeOf, Positive;
  }

  /** For an import that is ready the source is down already. */
  lemma StopReadyStep(inst: Import, s: Store, h: History, inst': Import, t: Store, g: History, ok: bool)
    requires Inv(s, h, true)
    requires OutcomeOf(s.cr) == Ready
    requires Ahead(inst, s)
    requires Positive(s.cr)
    requires Stopped(inst, s, h, inst', t, g, ok, true)
    ensures ok ==> Won(inst', t, g, true, 1) && Released(t, g)
    ensures g.succeeded > 0 ==> inst'.progress == Some(PROGRESS_DONE)
    ensures Inv(t, g, true) && Reconciled(s, h, t, g) && Carried(s, h, t, g)
    ensures t.cr.targetVMName == s.cr.targetVMName && t.cr.progress == s.cr.progress && OutcomeOf(t.cr) == Ready
    ensures SameRecord(s, t)
    ensures OnlyFinalizers(inst, inst')
  {
    OwnSame(s, h, t, g);
    SameConditions(s.cr, t.cr);
    hide OwnKept, OutcomeOf, Positive;
  }

  /** What the snapshot still says of the store when the source is about to be stopped. */
  predicate Ahead(inst: Import, s: Store) {
    && inst.finalizers == s.cr.finalizers && inst.progress == s.cr.progress
    && inst.targetVMName == s.cr.targetVMName && Unique(inst.conditions)
  }

  /** Either stage, measured against the state the reconcile began with. */
  lemma ImportingReconciled(inst: Import, s: Store, h: History, t: Store, g: History, startVM: bool)
    requires Inv(s, h, startVM) && OutcomeOf(s.cr) == Undecided && inst.progress == s.cr.progress
    requires Importing(inst, t, g, true) && Carried(s, h, t, g)
    ensures Inv(t, g, startVM) && Reconciled(s, h, t, g)
  {}

  lemma WonReconciled(inst: Import, s: Store, h: History, t: Store, g: History, startVM: bool, most: nat)
    requires Inv(s, h, startVM) && inst.progress == s.cr.progress && SuccessIsRun(t, g, startVM)
    requires OutcomeOf(s.cr) == Undecided || OutcomeOf(s.cr) == Ready
    requires Won(inst, t, g, startVM, most) && Released(t, g) && Carried(s, h, t, g) && h.succeeded <= g.succeeded
    ensures Inv(t, g, startVM) && Reconciled(s, h, t, g)
  {}

  lemma InvMeans(s: Store, h: History, startVM: bool)
    requires Inv(s, h, startVM)
    ensures Unique(s.cr.conditions)
    ensures OutcomeOf(s.cr) != Incoherent
    ensures s.cr.progress.None? ==> !Succeeding(OutcomeOf(s.cr))
    ensures OutcomeOf(s.cr) == Ready ==> s.cr.targetVMName != ""
    ensures Reconciled(s, h, s, h) && Ahead(s.cr, s)
  {}

  // ---------------------------------------------------------------------------------------------
  // Single writes

  /** An import that failed before it made any progress. */
  predicate FailedEarly(cr: Import) {
    OutcomeOf(cr) == Failed && cr.progress.None? && !cr.deleted
  }

  predicate OnlyConditions(s: Store, t: Store) {
    t == s.(cr := s.cr.(conditions := t.cr.conditions))
  }

  /** The effect of a write of conditions. */
  ghost predicate ConditionsWritten(s: Store, h: History, t: Store, g: History, ok: bool) {
    && t == s.(cr := s.cr.(conditions := t.cr.conditions)) && Unique(t.cr.conditions)
    && g == h.(sound := g.sound) && (g.sound ==> h.sound)
    && (!ok ==> t == s)
  }

  /** The effect of updateProgress: progress is written only above the snapshot's. */
  ghost predicate ProgressWritten(inst: Import, s: Store, h: History, t: Store, g: History, progress: int, ok: bool) {
    && (t == s || (inst.progress.GetOr(0) < progress && t == s.(cr := s.cr.(progress := Some(progress)))))
    && (ok && inst.progress.GetOr(0) < progress ==> t.cr.progress == Some(progress))
    && g == h.(sound := g.sound) && (g.sound ==> h.sound && ok)
  }

  /** Rewriting the conditions without touching the verdicts changes nothing that matters here. */
  lemma ConditionsStep(inst: Import, s: Store, h: History, t: Store, g: History, settled: bool, ok: bool)
    requires Importing(inst, s, h, settled)
    requires ConditionsWritten(s, h, t, g, ok)
    requires Positive(t.cr) == Positive(s.cr)
    requires OutcomeOf(t.cr) == OutcomeOf(s.cr) || OutcomeOf(t.cr) == Failed
    ensures Importing(inst, t, g, settled && OutcomeOf(t.cr) == OutcomeOf(s.cr)) && Importing(inst, t, g, false)
    ensures Carried(s, h, t, g) && OnlyRemoved(s, t)
    ensures OutcomeOf(t.cr) == OutcomeOf(s.cr) && Going(s, h) ==> Going(t, g)
    ensures t.cr.progress == s.cr.progress && t.cr.targetVMName == s.cr.targetVMName
  {
    OwnSame(s, h, t, g);
    hide OwnKept, OutcomeOf, Positive;
  }

  lemma ProgressStep(inst: Import, s: Store, h: History, t: Store, g: History, progress: int, settled: bool, ok: bool)
    requires Importing(inst, s, h, settled)
    requires progress <= 100
    requires ProgressWritten(inst, s, h, t, g, progress, ok)
    ensures Importing(inst, t, g, settled || !ok)
    ensures ok && 0 < progress ==> t.cr.progress.Some? && progress <= t.cr.progress.value <= 100
    ensures Carried(s, h, t, g) && OnlyRemoved(s, t)
    ensures OutcomeOf(t.cr) == OutcomeOf(s.cr) && t.cr.conditions == s.cr.conditions
    ensures Going(s, h) ==> Going(t, g)
    ensures (s.cr.progress.Some? ==> t.cr.progress.Some?) && t.cr.targetVMName == s.cr.targetVMName
  {
    OwnSame(s, h, t, g);
    SameConditions(s.cr, t.cr);
    hide OwnKept, OutcomeOf, Positive;
  }

  /** The three steps of afterFailure: the failure is counted, what was created is removed, and the
      source is given back. */
  lemma CountedStep(inst: Import, s: Store, h: History, inst': Import, t: Store, h': History, g: History, ok: bool)
    requires Importing(inst, s, h, false) && OutcomeOf(s.cr) == Failed
    requires FinalizersWritten(inst, s, h, inst', t, h',
                               if CancelledImport !in inst.finalizers then None
                               else Some(Without(inst.finalizers, CancelledImport)), ok)
    requires g == h'.(failed := h'.failed + 1)
    ensures Importing(inst', t, g, false) && Carried(s, h, t, g) && OnlyRemoved(s, t)
    ensures OnlyFinalizers(inst, inst')
    ensures OutcomeOf(t.cr) == Failed && g.failed == h.failed + 1 && t.cr.progress == s.cr.progress
    ensures t.cr.conditions == s.cr.conditions
    ensures g.cleanup.listRead ==> ListedGone(t)
  {
    OwnSame(s, h, t, g);
    SameConditions(s.cr, t.cr);
    hide OwnKept, OutcomeOf, Positive;
  }

  lemma OnlyTargetGone(s: Store, h: History, t: Store, g: History)
    requires TargetRemoved(s, h, t, g) && t.cr.targetVMName == s.cr.targetVMName
    requires OutcomeOf(t.cr) == Failed
    ensures OwnKept(s, h, t, g) && t.vms <= s.vms
    ensures h.cleanup.own <= s.vms ==> g.cleanup.own <= t.vms
  {
    hide OutcomeOf;
  }

  lemma CleanedStep(inst: Import, s: Store, h: History, inst': Import, t: Store, g: History, ok: bool)
    requires Importing(inst, s, h, false) && OutcomeOf(s.cr) == Failed && h.failed > 0
    requires CleanedUp(inst, s, h, inst', t, g, true, ok)
    ensures OnlyFinalizers(inst, inst')
    ensures (g.calm ==> Given(t, g)) && (g.sound ==> SoundlyKept(t, g, false))
    ensures Carried(s, h, t, g) && OnlyRemoved(s, t)
    ensures Importing(inst', t, g.(sound := false), true)
    ensures OutcomeOf(t.cr) == Failed && g.failed == h.failed && (ok ==> g.cleanup.done)
    ensures t.cr.progress == s.cr.progress && t.cr.conditions == s.cr.conditions
  {
    SameConditions(s.cr, t.cr);
    OnlyTargetGone(s, h, t, g);
    hide OwnKept, TargetRemoved, OutcomeOf, Positive;
  }

  lemma GivenBackStep(inst: Import, s: Store, h: History, t: Store, g: History)
    requires Importing(inst, s, h.(sound := false), true) && OutcomeOf(s.cr) == Failed && h.failed > 0
    requires (h.calm ==> Given(s, h)) && (h.sound ==> SoundlyKept(s, h, false))
    requires GivenBack(s, h, t, g, t.cr.initialState == Some(Up))
    ensures Importing(inst, t, g, true) && Carried(s, h, t, g) && OnlyRemoved(s, t)
    ensures t.cr == s.cr
  {}

  /** Recording the name of the VM just created. */
  lemma TargetStep(inst: Import, s: Store, h: History, t: Store, g: History, name: string)
    requires Importing(inst, s, h, true) && OutcomeOf(s.cr) == Undecided && s.cr.targetVMName == ""
    requires name != "" && inst.targetVMName == ""
    requires t == s || t == s.(cr := s.cr.(targetVMName := name))
    requires g == h.(sound := g.sound) && (g.sound ==> h.sound)
    ensures Importing(inst, t, g, true) && Carried(s, h, t, g)
    ensures OutcomeOf(t.cr) == Undecided
  {}

  /** A VM that is created belongs to the import; one that was there before does not by that. */
  lemma VMStep(inst: Import, s: Store, h: History, t: Store, g: History, created: string)
    requires Importing(inst, s, h, true) && OutcomeOf(s.cr) == Undecided
    requires || (t == s && g == h)
             || (&& created != "" && created !in s.vms && t == s.(vms := s.vms + {created})
                 && g == h.(cleanup := Adopted(h.cleanup, created)))
    ensures Importing(inst, t, g, true) && Carried(s, h, t, g)
    ensures OutcomeOf(t.cr) == Undecided
  {}

  /** With the target VM there, nothing has been cleaned up. */
  lemma NotCleanedUp(inst: Import, s: Store, h: History)
    requires Importing(inst, s, h, true) && Going(s, h) && s.cr.targetVMName in s.vms
    ensures !h.cleanup.done && CreatedAgain(h.cleanup) == h.cleanup && Going(s, h)
  {}

  /** The effect of updateDVs. */
  predicate Listed(s: Store, h: History, t: Store, g: History, name: string, ok: bool) {
    && g == h.(sound := g.sound) && (g.sound ==> h.sound)
    && (t == s || (name !in s.cr.dataVolumes && t == s.(cr := s.cr.(dataVolumes := s.cr.dataVolumes + [name]))))
    && (ok ==> name in t.cr.dataVolumes)
  }

  lemma NotListed(s: Store, h: History, name: string)
    ensures Listed(s, h, s, h, name, false)
  {}

  /** A data volume is created and listed, or it is remembered as missing on the list. */
  lemma VolumeStep(inst: Import, s: Store, h: History, t: Store, u: Store, k: History, name: string, ok: bool)
    requires Importing(inst, s, h, true) && !h.cleanup.done && Going(s, h) && s.cr.targetVMName in s.vms
    requires name != "" && t == s.(dvs := s.dvs + {name})
    requires Listed(t, h, u, k, name, ok)
    ensures var g := if ok then k else k.(cleanup := k.cleanup.(unlisted := true));
            && Importing(inst, u, g, true) && Carried(s, h, u, g) && Going(u, g)
            && (ok ==> g.cleanup == h.cleanup && name in u.dvs && name in u.cr.dataVolumes)
    ensures OutcomeOf(u.cr) == OutcomeOf(s.cr) && u.vms == s.vms && u.cr == s.cr.(dataVolumes := u.cr.dataVolumes)
    ensures u.cr.targetVMName == s.cr.targetVMName
  {
    var g := if ok then k else k.(cleanup := k.cleanup.(unlisted := true));
    OwnSame(s, h, u, g);
    VolumeListed(s, h, u, g, name);
    SameConditions(s.cr, u.cr);
    hide OwnKept, OutcomeOf, Positive, CleanedUpWell;
  }

  lemma VolumeListed(s: Store, h: History, t: Store, g: History, name: string)
    requires CleanedUpWell(s, h) && !h.cleanup.done
    requires t == s.(dvs := s.dvs + {name}, cr := s.cr.(dataVolumes := t.cr.dataVolumes))
    requires t.cr.dataVolumes == s.cr.dataVolumes || t.cr.dataVolumes == s.cr.dataVolumes + [name]
    requires g.failed == h.failed == 0
    requires if name in t.cr.dataVolumes then g.cleanup == h.cleanup || g.cleanup == h.cleanup.(unlisted := true)
             else g.cleanup == h.cleanup.(unlisted := true)
    ensures CleanedUpWell(t, g)
  {}

  lemma Unwritten(s: Store, h: History, t: Store, g: History)
    requires ConditionsWritten(s, h, t, g, false)
    ensures t == s
  {}

  lemma StillCalm(s: Store, h: History, t: Store, g: History, ok: bool)
    requires ConditionsWritten(s, h, t, g, ok)
    ensures (g.sound ==> h.sound) && (!ok ==> t == s) && OnlyConditions(s, t) && g == h.(sound := g.sound)
  {}

  lemma PowerWritten(s: Store, h: History, t: Store, g: History)
    requires ConditionsWritten(s, h, t, g, true)
    ensures OnlyConditions(s, t)
  {}

  /** After a positive validation that is not recorded the run is no longer sound. */
  lemma UnsoundStep(s: Store, h: History, t: Store, g: History, k: History, startVM: bool)
    requires Inv(s, h, startVM)
    requires ConditionsWritten(s, h, t, g, true) && k == g.(sound := false)
    requires OutcomeOf(t.cr) == OutcomeOf(s.cr)
    ensures Inv(t, k, startVM) && Reconciled(s, h, t, k)
  {}

  lemma InvalidWritten(c: Condition, s: Store, h: History, t: Store, g: History, ok: bool)
    requires c.kind == Valid && c.status == False
    requires ConditionsWritten(s, h, t, g, ok)
    requires ok ==>
              forall kind :: StateOf(t.cr.conditions, kind) == LastState([c], kind, StateOf(s.cr.conditions, kind))
    ensures OutcomeOf(t.cr) == OutcomeOf(s.cr)
    ensures ok ==> !Positive(t.cr)
    ensures !ok ==> t == s
    ensures g.sound ==> h.sound
    ensures ok ==> StateOf(t.cr.conditions, Valid) == Some((False, c.reason))
    ensures t.cr.progress == s.cr.progress && OnlyConditions(s, t) && g == h.(sound := g.sound)
  {
    LastOfOne(c, Valid, StateOf(s.cr.conditions, Valid));
    LastOfOne(c, Succeeded, StateOf(s.cr.conditions, Succeeded));
  }

  lemma ResultsWritten(rs: seq<Condition>, s: Store, h: History, t: Store, g: History, ok: bool)
    requires |rs| == 2 && rs[0].kind == Valid && rs[1].kind == MappingRulesVerified
    requires rs[0].status != Unknown && rs[1].status != Unknown
    requires ConditionsWritten(s, h, t, g, ok)
    requires ok ==> forall kind :: StateOf(t.cr.conditions, kind) == LastState(rs, kind, StateOf(s.cr.conditions, kind))
    ensures OutcomeOf(t.cr) == OutcomeOf(s.cr)
    ensures ok ==> (Positive(t.cr) <==> rs[0].status == rs[1].status == True)
    ensures ok ==> (Positive(t.cr) <==> forall c | c in rs :: c.status != False)
    ensures !ok ==> t == s
    ensures (g.sound ==> h.sound) && OnlyConditions(s, t)
  {
    assert rs == [rs[0], rs[1]];
    LastOfTwo(rs[0], rs[1], Valid, StateOf(s.cr.conditions, Valid));
    LastOfTwo(rs[0], rs[1], MappingRulesVerified, StateOf(s.cr.conditions, MappingRulesVerified));
    LastOfTwo(rs[0], rs[1], Succeeded, StateOf(s.cr.conditions, Succeeded));
  }

  /** A deleted import gives its source back: once more for every attempt that is made. */
  lemma GivenBackDeleted(s: Store, h: History, t: Store, g: History, startVM: bool)
    requires Inv(s, h, startVM) && s.cr.deleted && RestoreVMState in s.cr.finalizers
    requires GivenBack(s, h, t, g, t.cr.initialState == Some(Up))
    ensures Inv(t, g, startVM) && Reconciled(s, h, t, g)
    ensures SameRecord(s, t)
    ensures g.calm && OutcomeOf(t.cr) == Undecided ==> g.asked > 0 && g.original == Up && Positive(t.cr)
    ensures g.sound ==> g.asked == h.asked + if MeantToBeUp(t.cr) then 1 else 0
    ensures g.sound ==> g.marked && (g.asked > 0 <==> MeantToBeUp(t.cr))
  {}

  lemma LetGo(inst: Import, s: Store, h: History, t: Store, g: History, inst': Import, u: Store, k: History,
              startVM: bool, ok: bool)
    requires Inv(t, g, startVM) && Reconciled(s, h, t, g)
    requires t.cr.deleted && inst.finalizers == t.cr.finalizers
    requires g.calm && OutcomeOf(t.cr) == Undecided ==> g.asked > 0 && g.original == Up && Positive(t.cr)
    requires g.sound ==> g.marked && (g.asked > 0 <==> MeantToBeUp(t.cr))
    requires FinalizersWritten(inst, t, g, inst', u, k,
                               if RestoreVMState !in inst.finalizers then None
                               else Some(Without(inst.finalizers, RestoreVMState)), ok)
    ensures Inv(u, k, startVM) && Reconciled(s, h, u, k)
    ensures k == g.(sound := k.sound) && (k.sound ==> g.sound) && SameRecord(t, u)
  {}

  /** Where a reconcile that got past stopping the source leaves off. */
  ghost predicate AtEnd(inst: Import, s: Store, h: History, startVM: bool) {
    || Importing(inst, s, h, true)
    || (Released(s, h) && SuccessIsRun(s, h, startVM) && exists most :: Won(inst, s, h, startVM, most))
  }

  lemma EndImporting(inst: Import, s: Store, h: History, startVM: bool)
    requires Importing(inst, s, h, true)
    ensures AtEnd(inst, s, h, startVM) && !Succeeding(OutcomeOf(s.cr))
  {}

  lemma EndWon(inst: Import, s: Store, h: History, startVM: bool, most: nat)
    requires Won(inst, s, h, startVM, most) && Released(s, h) && SuccessIsRun(s, h, startVM)
    ensures AtEnd(inst, s, h, startVM) && Succeeding(OutcomeOf(s.cr))
  {}

  lemma SameOutcome(inst: Import, inst': Import)
    requires OnlyFinalizers(inst, inst')
    ensures OutcomeOf(inst') == OutcomeOf(inst)
  {}

  lemma ReconciledMeans(s: Store, h: History, t: Store, g: History)
    requires Reconciled(s, h, t, g)
    ensures g.calm ==> h.calm
    ensures t.cr.deleted == s.cr.deleted
    ensures OutcomeOf(s.cr) == OutcomeOf(t.cr) || OutcomeOf(s.cr) == Undecided || OutcomeOf(t.cr) == Running
  {}

  lemma EndReconciled(inst: Import, s: Store, h: History, t: Store, g: History, startVM: bool)
    requires Inv(s, h, startVM) && s.cr.progress == inst.progress
    requires OutcomeOf(s.cr) == Undecided || OutcomeOf(s.cr) == Ready
    requires AtEnd(inst, t, g, startVM) && Carried(s, h, t, g)
    requires OutcomeOf(s.cr) == Ready ==> h.succeeded <= g.succeeded && Succeeding(OutcomeOf(t.cr))
    ensures Inv(t, g, startVM) && Reconciled(s, h, t, g) && SameRecord(s, t)
  {
    if Importing(inst, t, g, true) {
      ImportingReconciled(inst, s, h, t, g, startVM);
    } else {
      var most :| Won(inst, t, g, startVM, most);
      WonReconciled(inst, s, h, t, g, startVM, most);
    }
  }

  lemma NothingChanged(s: Store, h: History)
    ensures LeftAlone(s, h, s, h)
  {}

  lemma OnlyConditionsChanged(s: Store, h: History, t: Store, g: History)
    requires OnlyConditions(s, t) && OutcomeOf(t.cr) == OutcomeOf(s.cr) && g == h.(sound := g.sound)
    ensures LeftAlone(s, h, t, g)
  {
    hide OutcomeOf;
  }

  /** A settled import without progress has failed. */
  lemma SettledFails(s: Store, h: History, startVM: bool)
    requires Inv(s, h, startVM) && Settled(s.cr, startVM) && s.cr.progress.None?
    ensures OutcomeOf(s.cr) == Failed
  {}

  /** In a calm run only the restore finalizer can keep a cancelled import from going away. */
  lemma NotDeleted(inst: Import, s: Store, h: History, startVM: bool)
    requires Fresh(inst, s) && Inv(s, h, startVM)
    requires inst.deleted ==> CancelledImport !in inst.finalizers && inst.finalizers != []
    requires !(inst.deleted && RestoreVMState in inst.finalizers)
    ensures h.calm ==> !inst.deleted
  {
    if inst.finalizers != [] {
      var f := inst.finalizers[0];
      assert f in inst.finalizers;
    }
  }

  lemma RemovedTarget(s: Store, t: Store)
    requires OnlyRemoved(s, t)
    ensures t.cr.targetVMName == s.cr.targetVMName
  {}

  /** Without a target VM there are no data volumes. */
  lemma NothingYet(inst: Import, s: Store, h: History)
    requires Importing(inst, s, h, true)
    ensures s.cr.targetVMName == "" ==> s.dvs == {}
  {}

  lemma CardinalityOfSubset(a: set<string>, b: set<string>)
    requires a <= b
    ensures |a| <= |b|
  {
    assert b == a + (b - a);
  }

  predicate AtLeast(progress: Option<int>, least: int) {
    progress.Some? && least <= progress.value
  }

  /** What the import says it is doing, and how it says it has ended. */
  function Doing(cr: Import): Option<(Status, Reason)> {
    StateOf(cr.conditions, Processing)
  }

  function Deciding(cr: Import): Option<(Status, Reason)> {
    StateOf(cr.conditions, Succeeded)
  }

  /** The state a list of new conditions leaves for a kind. */
  function LastState(cs: seq<Condition>, kind: Kind, before: Option<(Status, Reason)>): Option<(Status, Reason)> {
    if cs == [] then before
    else if cs[|cs| - 1].kind == kind then Some((cs[|cs| - 1].status, cs[|cs| - 1].reason))
    else LastState(cs[..|cs| - 1], kind, before)
  }

  lemma LastOfOne(c: Condition, kind: Kind, before: Option<(Status, Reason)>)
    ensures LastState([c], kind, before) == if c.kind == kind then Some((c.status, c.reason)) else before
  {
    assert [c][..0] == [];
  }

  lemma LastOfTwo(c: Condition, d: Condition, kind: Kind, before: Option<(Status, Reason)>)
    ensures LastState([c, d], kind, before) ==
            if d.kind == kind then Some((d.status, d.reason))
            else if c.kind == kind then Some((c.status, c.reason))
            else before
  {
    assert [c, d][..1] == [c];
    LastOfOne(c, kind, before);
  }

  /** What the loop over the disks has written down of those it has looked at: which are done, and how far
      the others are. `before` are the data volumes that were there at its beginning. */
  predicate Tallied(looked: set<string>, phases: map<string, Phase>, dvsDone: map<string, bool>,
                    dvsImportProgress: map<string, Percent>, before: set<string>, failed: bool, nameless: bool)
  {
    && dvsDone.Keys <= dvsImportProgress.Keys <= looked
    && (forall d | d in dvsDone :: dvsDone[d])
    && (forall d | d in looked :: d in dvsDone <==> d in phases && phases[d] == Complete)
    && (!failed ==> forall d | d in looked && d in before :: d in phases)
    && (nameless ==> dvsDone == map[])
    && (failed && !nameless ==> dvsDone.Keys != looked)
  }

  lemma NothingTallied(before: set<string>, failed: bool, nameless: bool)
    requires failed ==> nameless
    ensures Tallied({}, map[], map[], map[], before, failed, nameless)
  {}

  lemma TalliedOneMore(looked: set<string>, phases: map<string, Phase>, phases': map<string, Phase>,
                       dvsDone: map<string, bool>, dvsImportProgress: map<string, Percent>, before: set<string>,
                       dvs: set<string>, failed: bool, failed': bool, nameless: bool, d: string, complete: bool,
                       progress: Option<Percent>)
    requires Tallied(looked, phases, dvsDone, dvsImportProgress, before, failed, nameless)
    requires d !in looked && phases.Keys <= looked
    requires if progress.Some?
             then d in phases' && phases' == phases[d := phases'[d]] && (complete <==> phases'[d] == Complete)
             else phases' == phases && !complete && d !in dvs
    requires (failed ==> failed') && (!failed ==> before <= dvs)
    requires complete ==> failed' == failed && d in dvs
    requires nameless ==> dvs == {}
    ensures Tallied(looked + {d}, phases', if complete then dvsDone[d := true] else dvsDone,
                    if progress.Some? then dvsImportProgress[d := progress.value] else dvsImportProgress, before,
                    failed', nameless)
  {}

  /** What an import that could not get a provider is told. */
  function ProviderFault(secret: Lookup, initialised: bool): Reason {
    if secret.NotFound? then SecretNotFound
    else if !initialised then UninitializedProvider
    else UnreachableProvider
  }

  /** What the reply of a reconcile tells, and what it may have done to the import:
      - an error has a cause;
      - an undecided import fails only for a cause, becomes ready only on evidence and, without an error,
        exactly on evidence;
      - without an error the evidence has been looked for, and a VM to be started has been seen to, unless
        there was nothing to be done or the import failed;
      - it asks to be run again soon only for an import that was not valid before and is not now, and for a
        deleted one whose source is still to be given back;
      - the recorded state is the source's power before, and is recorded for an import that was not valid. */
  ghost predicate Answered(reply: Reply, s: Store, t: Store, client: Client, conversion: bool, startVM: bool)
    reads client, client.seen
  {
    && (reply == ReconcileError ==> client.troubled || s.power == OtherPower)
    && (OutcomeOf(s.cr) == Undecided ==>
          && Blamed(s.cr, t.cr, client.troubled, client.seen.bad)
          && (Succeeding(OutcomeOf(t.cr)) ==> Evidence(client.seen, conversion))
          && (reply == Finished ==> (OutcomeOf(t.cr) == Ready <==> Evidence(client.seen, conversion))))
    && (reply == Finished && client.seen.read && !s.cr.deleted && !Settled(s.cr, startVM) ==>
          OutcomeOf(t.cr) == Failed || Told(s, t, client.seen, conversion))
    && RequeuesFor(reply, t.cr) && (reply == RequeueAfter(5) ==> !Positive(s.cr))
    && Records(s, t)
  }

  /** If nothing is looked at, nothing becomes ready. */
  lemma AnsweredUnseen(reply: Reply, s: Store, t: Store, client: Client, conversion: bool, startVM: bool)
    requires client.seen.mapped == {} && !reply.RequeueAfter?
    requires t.cr.initialState == s.cr.initialState
    requires (OutcomeOf(t.cr) == Failed && client.troubled) || OutcomeOf(t.cr) == OutcomeOf(s.cr)
    requires reply == ReconcileError ==> client.troubled
    requires reply == Finished ==> OutcomeOf(t.cr) == Failed || !client.seen.read || s.cr.deleted
    ensures Answered(reply, s, t, client, conversion, startVM) && Records(s, t)
  {
    hide OutcomeOf, Positive;
  }

  lemma AnsweredSince(reply: Reply, s: Store, t: Store, u: Store, client: Client, conversion: bool, startVM: bool)
    requires Answered(reply, t, u, client, conversion, startVM)
    requires OutcomeOf(t.cr) == OutcomeOf(s.cr) && t.cr.deleted == s.cr.deleted && t.dvs == s.dvs && SourceKept(s, t)
    ensures Answered(reply, s, u, client, conversion, startVM) && Records(s, u)
  {
    hide OutcomeOf, Positive, Evidence;
  }

  class ImportReconciler {
    const client: Client
    const vmware: bool
    const startVM: bool
    const actions: Actions

    constructor (client: Client, vmware: bool, startVM: bool, actions: Actions)
      ensures this.client == client && this.vmware == vmware && this.startVM == startVM && this.actions == actions
    {
      this.client, this.vmware, this.startVM, this.actions := client, vmware, startVM, actions;
    }

    method MakeCondition(kind: Kind, reason: Reason, status: Status) returns (c: Condition)
      ensures c.kind == kind && c.reason == reason && c.status == status
    {
      var message: string, now: Time := *, *;
      c := NewCondition(kind, reason, message, status, now);
    }

    method UpsertStatusConditions(newConditions: seq<Condition>) returns (ok: bool)
      requires Unique(client.store.cr.conditions)
      modifies client
      ensures Accounted(old(client.troubled), client.troubled, ok)
      ensures Untroubled(old(client.hist), client.hist, client.troubled)
      ensures ok || client.refused
      ensures ConditionsWritten(old(client.store), old(client.hist), client.store, client.hist, ok)
      ensures ok ==> forall kind :: StateOf(client.store.cr.conditions, kind)
                                    == LastState(newConditions, kind, StateOf(old(client.store).cr.conditions, kind))
    {
      var cr;
      ok, cr := client.GetImport();
      if !ok {
        return;
      }
      var copy := new StatusCopy(cr.conditions);
      ghost var troubled := client.troubled;
      for i := 0 to |newConditions|
        invariant client.store == old(client.store) && client.hist == old(client.hist)
        invariant client.troubled == troubled
        invariant Unique(copy.conditions)
        invariant forall kind :: StateOf(copy.conditions, kind)
                                 == LastState(newConditions[..i], kind, StateOf(cr.conditions, kind))
      {
        var now: Time := *;
        ghost var before := copy.conditions;
        copy.UpsertCondition(newConditions[i], now);
        assert newConditions[..i + 1][..i] == newConditions[..i];
        forall kind
          ensures StateOf(copy.conditions, kind)
                    == LastState(newConditions[..i + 1], kind, StateOf(cr.conditions, kind))
          ensures Unique(copy.conditions)
        {
          UpsertFind(before, newConditions[i], now, kind);
        }
        UpsertFind(before, newConditions[i], now, Succeeded);
      }
      assert newConditions[..|newConditions|] == newConditions;
      ok := client.WriteImport(client.store.cr.(conditions := copy.conditions));
    }

    /** One condition that has no say in the outcome. */
    method SetProcessing(reason: Reason, status: Status) returns (ok: bool)
      requires Unique(client.store.cr.conditions)
      modifies client
      ensures Accounted(old(client.troubled), client.troubled, ok)
      ensures Untroubled(old(client.hist), client.hist, client.troubled)
      ensures ok ==> Doing(client.store.cr) == Some((status, reason))
      ensures ConditionsWritten(old(client.store), old(client.hist), client.store, client.hist, ok)
      ensures OutcomeOf(client.store.cr) == OutcomeOf(old(client.store).cr)
      ensures Positive(client.store.cr) == Positive(old(client.store).cr)
    {
      var c := MakeCondition(Processing, reason, status);
      ghost var before := client.store.cr.conditions;
      ok := UpsertStatusConditions([c]);
      LastOfOne(c, Processing, StateOf(before, Processing));
      LastOfOne(c, Succeeded, StateOf(before, Succeeded));
      LastOfOne(c, Valid, StateOf(before, Valid));
      LastOfOne(c, MappingRulesVerified, StateOf(before, MappingRulesVerified));
    }

    /** The import is marked as failed; what else it is to say about its processing goes along. */
    method FailWith(reason: Reason, processing: seq<Condition>) returns (ok: bool)
      requires Unique(client.store.cr.conditions)
      requires reason != VirtualMachineReady && reason != VirtualMachineRunning
      requires |processing| <= 1 && forall c | c in processing :: c.kind == Processing
      modifies client
      ensures Accounted(old(client.troubled), client.troubled, ok)
      ensures Untroubled(old(client.hist), client.hist, client.troubled)
      ensures ConditionsWritten(old(client.store), old(client.hist), client.store, client.hist, ok)
      ensures ok ==> OutcomeOf(client.store.cr) == Failed && Deciding(client.store.cr) == Some((False, reason))
      ensures ok ==> Doing(client.store.cr)
                     == if processing == [] then Doing(old(client.store).cr)
                        else Some((processing[0].status, processing[0].reason))
      ensures Positive(client.store.cr) == Positive(old(client.store).cr)
    {
      var c := MakeCondition(Succeeded, reason, False);
      ghost var before := client.store.cr.conditions;
      ok := UpsertStatusConditions([c] + processing);
      if processing == [] {
        assert [c] + processing == [c];
        LastOfOne(c, Processing, StateOf(before, Processing));
        LastOfOne(c, Succeeded, StateOf(before, Succeeded));
        LastOfOne(c, Valid, StateOf(before, Valid));
        LastOfOne(c, MappingRulesVerified, StateOf(before, MappingRulesVerified));
      } else {
        assert [c] + processing == [c, processing[0]];
        LastOfTwo(c, processing[0], Processing, StateOf(before, Processing));
        LastOfTwo(c, processing[0], Succeeded, StateOf(before, Succeeded));
        LastOfTwo(c, processing[0], Valid, StateOf(before, Valid));
        LastOfTwo(c, processing[0], MappingRulesVerified, StateOf(before, MappingRulesVerified));
      }
    }

    method UpdateProgress(instance: Snapshot, progress: int) returns (ok: bool)
      modifies client
      ensures Accounted(old(client.troubled), client.troubled, ok)
      ensures Untroubled(old(client.hist), client.hist, client.troubled)
      ensures ProgressWritten(instance.cr, old(client.store), old(client.hist), client.store, client.hist, progress, ok)
    {
      var current := instance.cr.progress.GetOr(0);
      ok := true;
      if current < progress {
        ok := client.WriteImport(client.store.cr.(progress := Some(progress)));
      }
    }

    // -------------------------------------------------------------------------------------------
    // Ending an import

    method RestoreInitialVMState(provider: SourceProvider) returns (e: Error)
      requires provider.client == client && client.seen.ready
      modifies provider, client
      ensures Accounted(old(client.troubled), client.troubled, e == Fine)
      ensures Untroubled(old(client.hist), client.hist, client.troubled)
      ensures GivenBack(old(client.store), old(client.hist), client.store, client.hist,
                        client.store.cr.initialState == Some(Up))
    {
      var ok, cr := client.GetImport();
      if !ok {
        client.hist := client.hist.(sound := false);
        return OtherError;
      }
      var recorded := client.GetInitialState(cr);
      if recorded.None? {
        return OtherError;
      }
      if recorded.value == Up {
        e := provider.StartVM();
        return;
      }
      return Fine;
    }

    /** A failed import can no longer be cancelled; from here on its failure counts. */
    method LeaveFailed(instance: Snapshot)
      requires Importing(instance.cr, client.store, client.hist, false)
      requires OutcomeOf(client.store.cr) == Failed
      modifies instance, client
      ensures Accounted(old(client.troubled), client.troubled, true)
      ensures Untroubled(old(client.hist), client.hist, client.troubled)
      ensures OnlyFinalizers(old(instance.cr), instance.cr)
      ensures Importing(instance.cr, client.store, client.hist, false)
      ensures Carried(old(client.store), old(client.hist), client.store, client.hist)
      ensures OnlyRemoved(old(client.store), client.store)
      ensures OutcomeOf(client.store.cr) == Failed && client.store.cr.progress == old(client.store).cr.progress
      ensures client.store.cr.conditions == old(client.store).cr.conditions
      ensures client.hist.failed == old(client.hist).failed + 1
      ensures client.hist.cleanup.listRead ==> ListedGone(client.store)
    {
      hide Importing, Carried, OnlyRemoved, OnlyFinalizers, OutcomeOf, ListedGone, Without, FinalizersWritten;
      ghost var inst, s, h := instance.cr, client.store, client.hist;
      ImportingMeans(inst, s, h, false);
      var ok := RemoveFinalizer(instance, CancelledImport, client);
      ghost var h' := client.hist;
      client.hist := client.hist.(failed := client.hist.failed + 1);
      CountedStep(inst, s, h, instance.cr, client.store, h', client.hist, ok);
    }

    method AfterFailure(provider: SourceProvider, instance: Snapshot) returns (ok: bool)
      requires provider.client == client && client.seen.ready
      requires Importing(instance.cr, client.store, client.hist, false)
      requires OutcomeOf(client.store.cr) == Failed
      modifies provider, instance, client
      ensures Accounted(old(client.troubled), client.troubled, ok)
      ensures Untroubled(old(client.hist), client.hist, client.troubled)
      ensures OnlyFinalizers(old(instance.cr), instance.cr)
      ensures Importing(instance.cr, client.store, client.hist, true)
      ensures Carried(old(client.store), old(client.hist), client.store, client.hist)
      ensures OnlyRemoved(old(client.store), client.store)
      ensures client.store.cr.progress == old(client.store).cr.progress
      ensures client.store.cr.conditions == old(client.store).cr.conditions
      ensures client.hist.failed == old(client.hist).failed + 1
      ensures ok ==> client.hist.cleanup.done
    {
      hide Importing, Carried, OnlyRemoved, OnlyFinalizers, OutcomeOf, ListedGone, CleanedUp, Given, GivenBack;
      ghost var inst, s, h := instance.cr, client.store, client.hist;
      LeaveFailed(instance);
      ghost var inst', t, g := instance.cr, client.store, client.hist;
      ImportingMeans(inst', t, g, false);
      ok := provider.CleanUp(true, instance);
      ghost var u, k := client.store, client.hist;
      CleanedStep(inst', t, g, instance.cr, u, k, ok);
      OnlyFinalizersTrans(inst, inst', instance.cr);
      Trans(s, h, t, g, u, k);
      var e := RestoreInitialVMState(provider);
      GivenBackStep(instance.cr, u, k, client.store, client.hist);
      Trans(s, h, u, k, client.store, client.hist);
      ok := ok && e == Fine;
    }

    /** The conditions of a failure: first that processing has failed, then the outcome. */
    method MarkAsFailed(instance: Snapshot, reason: Reason) returns (ok: bool)
      requires reason != VirtualMachineReady && reason != VirtualMachineRunning
      requires Importing(instance.cr, client.store, client.hist, true)
      modifies client
      ensures Accounted(old(client.troubled), client.troubled, ok)
      ensures Untroubled(old(client.hist), client.hist, client.troubled)
      ensures Importing(instance.cr, client.store, client.hist, !ok)
      ensures Carried(old(client.store), old(client.hist), client.store, client.hist)
      ensures OnlyRemoved(old(client.store), client.store)
      ensures ok ==> OutcomeOf(client.store.cr) == Failed
      ensures ok ==>
                && Deciding(client.store.cr) == Some((False, reason))
                && Doing(client.store.cr) == Some((False, ProcessingFailed))
    {
      hide Importing, Carried, OnlyRemoved, Positive, OutcomeOf, ConditionsWritten;
      ghost var s, h := client.store, client.hist;
      ImportingMeans(instance.cr, s, h, true);
      ok := SetProcessing(ProcessingFailed, False);
      ghost var t, g := client.store, client.hist;
      ConditionsStep(instance.cr, s, h, t, g, true, ok);
      if !ok {
        return;
      }
      ImportingMeans(instance.cr, t, g, true);
      ok := FailWith(reason, []);
      ConditionsStep(instance.cr, t, g, client.store, client.hist, true, ok);
      Trans(s, h, t, g, client.store, client.hist);
      if !ok {
        Unwritten(t, g, client.store, client.hist);
      }
    }

    /** The common course of endImportAsFailed and endGuestConversionAsFailed, which differ in the
        reason they give. */
    method EndAsFailed(provider: SourceProvider, instance: Snapshot, reason: Reason)
      returns (ok: bool)
      requires provider.client == client && client.seen.ready
      requires reason != VirtualMachineReady && reason != VirtualMachineRunning
      requires Importing(instance.cr, client.store, client.hist, true)
      modifies provider, instance, client
      ensures Accounted(old(client.troubled), client.troubled, ok)
      ensures Untroubled(old(client.hist), client.hist, client.troubled)
      ensures OnlyFinalizers(old(instance.cr), instance.cr)
      ensures Importing(instance.cr, client.store, client.hist, true)
      ensures Carried(old(client.store), old(client.hist), client.store, client.hist)
      ensures OnlyRemoved(old(client.store), client.store)
      ensures ok ==> OutcomeOf(client.store.cr) == Failed && client.hist.cleanup.done && client.hist.failed > 0
      ensures ok ==> client.store.cr.progress == Some(PROGRESS_DONE)
      ensures ok ==>
                && Deciding(client.store.cr) == Some((False, reason))
                && Doing(client.store.cr) == Some((False, ProcessingFailed))
    {
      hide Importing, Carried, OnlyRemoved, OnlyFinalizers, Positive, OutcomeOf, ProgressWritten;
      ghost var s, h := client.store, client.hist;
      OnlyFinalizersRefl(instance.cr);
      ok := MarkAsFailed(instance, reason);
      if !ok {
        return;
      }
      ghost var t, g := client.store, client.hist;
      ok := UpdateProgress(instance, PROGRESS_DONE);
      ghost var t', g' := client.store, client.hist;
      ProgressStep(instance.cr, t, g, t', g', PROGRESS_DONE, false, ok);
      Trans(s, h, t, g, t', g');
      if !ok {
        return;
      }
      ok := AfterFailure(provider, instance);
      Trans(s, h, t', g', client.store, client.hist);
      ImportingMeans(instance.cr, client.store, client.hist, true);
    }

    // -------------------------------------------------------------------------------------------
    // Importing the disks

    method UpdateDVs(name: string) returns (ok: bool)
      modifies client
      ensures Accounted(old(client.troubled), client.troubled, ok)
      ensures Untroubled(old(client.hist), client.hist, client.troubled)
      ensures Listed(old(client.store), old(client.hist), client.store, client.hist, name, ok)
    {
      var cr;
      ok, cr := client.GetImport();
      if ok && name !in cr.dataVolumes {
        ok := client.WriteImport(client.store.cr.(dataVolumes := cr.dataVolumes + [name]));
      }
    }

    /** The import says what it is doing, and how far it has got. */
    method Announce(instance: Snapshot, reason: Reason, progress: int) returns (ok: bool)
      requires Importing(instance.cr, client.store, client.hist, true) && 0 < progress <= 100
      modifies client
      ensures Accounted(old(client.troubled), client.troubled, ok)
      ensures Untroubled(old(client.hist), client.hist, client.troubled)
      ensures Importing(instance.cr, client.store, client.hist, true)
      ensures Going(old(client.store), old(client.hist)) ==> Going(client.store, client.hist)
      ensures Carried(old(client.store), old(client.hist), client.store, client.hist)
      ensures client.store == old(client.store).(cr := client.store.cr)
      ensures client.hist.cleanup == old(client.hist).cleanup
      ensures client.store.cr.targetVMName == old(client.store).cr.targetVMName
      ensures OutcomeOf(client.store.cr) == OutcomeOf(old(client.store).cr)
      ensures old(client.store).cr.progress.Some? ==> client.store.cr.progress.Some?
      ensures ok ==> Doing(client.store.cr) == Some((True, reason)) && AtLeast(client.store.cr.progress, progress)
    {
      hide Importing, Carried, Positive, OutcomeOf, Going;
      ghost var s, h := client.store, client.hist;
      ImportingMeans(instance.cr, s, h, true);
      ok := SetProcessing(reason, True);
      ghost var t, g := client.store, client.hist;
      ConditionsStep(instance.cr, s, h, t, g, true, ok);
      if !ok {
        return;
      }
      ok := UpdateProgress(instance, progress);
      ProgressStep(instance.cr, t, g, client.store, client.hist, progress, true, ok);
      Trans(s, h, t, g, client.store, client.hist);
    }

    method CreateDataVolume(provider: SourceProvider, instance: Snapshot, name: string, vmName: string)
      returns (ok: bool)
      requires Importing(instance.cr, client.store, client.hist, true) && Going(client.store, client.hist)
      requires vmName == "" || vmName == client.store.cr.targetVMName
      requires name in client.seen.fit
      modifies client
      ensures Accounted(old(client.troubled), client.troubled, ok)
      ensures Untroubled(old(client.hist), client.hist, client.troubled)
      ensures Importing(instance.cr, client.store, client.hist, true) && Going(client.store, client.hist)
      ensures Carried(old(client.store), old(client.hist), client.store, client.hist)
      ensures client.store.cr.targetVMName == old(client.store).cr.targetVMName
      ensures client.store.vms == old(client.store).vms
      ensures OutcomeOf(client.store.cr) == OutcomeOf(old(client.store).cr)
      ensures ok ==> name in client.store.dvs && name in client.store.cr.dataVolumes
                     && vmName in client.store.vms && vmName == client.store.cr.targetVMName
      ensures ok ==> client.hist.cleanup == old(client.hist).cleanup
      ensures ok ==>
                && Doing(client.store.cr) == Some((True, CopyingDisks))
                && AtLeast(client.store.cr.progress, 10)
    {
      hide Importing, Carried, OnlyRemoved, Positive, OutcomeOf, ConditionsWritten, ProgressWritten;
      ghost var s, h := client.store, client.hist;
      ImportingMeans(instance.cr, s, h, true);
      ok := Announce(instance, CopyingDisks, PROGRESS_COPYING_DISKS);
      ghost var t', g' := client.store, client.hist;
      if !ok {
        return;
      }
      ok := client.GetVM(vmName);
      if !ok {
        return;
      }
      ImportingMeans(instance.cr, t', g', true);
      ok := MakeVolume(instance, name);
      Trans(s, h, t', g', client.store, client.hist);
    }

    /** With the target VM found, the data volume is created, owned by the VM and listed. */
    method MakeVolume(instance: Snapshot, name: string) returns (ok: bool)
      requires Importing(instance.cr, client.store, client.hist, true) && Going(client.store, client.hist)
      requires client.store.cr.targetVMName in client.store.vms
      requires name in client.seen.fit
      modifies client
      ensures Accounted(old(client.troubled), client.troubled, ok)
      ensures Untroubled(old(client.hist), client.hist, client.troubled)
      ensures Importing(instance.cr, client.store, client.hist, true) && Going(client.store, client.hist)
      ensures Carried(old(client.store), old(client.hist), client.store, client.hist)
      ensures client.store.cr.targetVMName == old(client.store).cr.targetVMName
      ensures client.store.vms == old(client.store).vms
      ensures OutcomeOf(client.store.cr) == OutcomeOf(old(client.store).cr)
      ensures ok ==> name in client.store.dvs && name in client.store.cr.dataVolumes
      ensures ok ==> client.hist.cleanup == old(client.hist).cleanup
      ensures client.store.cr == old(client.store).cr.(dataVolumes := client.store.cr.dataVolumes)
    {
      hide Importing, Carried, OutcomeOf, Going, Listed;
      ghost var s, h := client.store, client.hist;
      Refl(s, h);
      NotCleanedUp(instance.cr, s, h);
      ok := client.Ask();  // the owner reference
      if !ok {
        return;
      }
      ok := client.CreateDataVolume(name);
      if !ok {
        return;
      }
      ghost var t := client.store;
      NotListed(t, h, name);
      ok := client.Ask();  // the VM as an owner
      if ok {
        ok := UpdateDVs(name);
      }
      VolumeStep(instance.cr, s, h, t, client.store, client.hist, name, ok);
      if !ok {
        client.hist := client.hist.(cleanup := client.hist.cleanup.(unlisted := true));
      } else {
        ok := client.Ask();  // the VM is read and patched with the disk
      }
    }

    /** A pod whose containers keep crashing ends the import, once for every such container. */
    method CheckImporterPod(provider: SourceProvider, instance: Snapshot) returns (ok: bool, ghost crashing: bool)
      requires provider.client == client && client.seen.ready
      requires Importing(instance.cr, client.store, client.hist, true) && Going(client.store, client.hist)
      modifies provider, instance, client, client.seen`bad
      ensures Accounted(old(client.troubled), client.troubled, ok)
      ensures Untroubled(old(client.hist), client.hist, client.troubled)
      ensures client.seen.bad == (old(client.seen.bad) || crashing)
      ensures OnlyFinalizers(old(instance.cr), instance.cr)
      ensures Importing(instance.cr, client.store, client.hist, true)
      ensures Carried(old(client.store), old(client.hist), client.store, client.hist)
      ensures OnlyRemoved(old(client.store), client.store)
      ensures ok ==> Going(client.store, client.hist)
      ensures !crashing ==> ok && client.store == old(client.store) && client.hist == old(client.hist)
      ensures ok && crashing ==>
                && Deciding(client.store.cr) == Some((False, DataVolumeCreationFailed))
                && client.store.cr.progress == Some(PROGRESS_DONE) && client.hist.cleanup.done
    {
      hide Importing, Carried, OnlyRemoved, Positive, OutcomeOf;
      ghost var inst, s, h := instance.cr, client.store, client.hist;
      Refl(s, h);
      var crashes := client.GetPod();
      ok, crashing := true, true in crashes;
      for i := 0 to |crashes|
        invariant old(client.troubled) ==> client.troubled
        invariant Untroubled(h, client.hist, client.troubled)
        invariant client.seen.bad == (old(client.seen.bad) || true in crashes)
        invariant OnlyFinalizers(inst, instance.cr)
        invariant Importing(instance.cr, client.store, client.hist, true)
        invariant Carried(s, h, client.store, client.hist) && OnlyRemoved(s, client.store)
        invariant Going(client.store, client.hist)
        invariant ok && if true in crashes[..i]
                        then && Deciding(client.store.cr) == Some((False, DataVolumeCreationFailed))
                             && client.store.cr.progress == Some(PROGRESS_DONE) && client.hist.cleanup.done
                        else client.store == s && client.hist == h
      {
        assert crashes[..i + 1] == crashes[..i] + [crashes[i]];
        if crashes[i] {
          ghost var t, g := client.store, client.hist;
          ok := EndAsFailed(provider, instance, DataVolumeCreationFailed);
          Trans(s, h, t, g, client.store, client.hist);
          if !ok {
            return;
          }
        }
      }
      assert crashes[..|crashes|] == crashes;
    }

    /** One turn of the loop of importDisks. `stop` is the turn that leaves the loop without an error;
        a failure that was dealt with does not. */
    method ImportDisk(provider: SourceProvider, instance: Snapshot, dvID: string, vmName: string)
      returns (ok: bool, stop: bool, complete: bool, progress: Option<Percent>,
               ghost seen: Lookup, ghost valid: bool, ghost made: bool)
      requires provider.client == client && client.seen.ready
      requires Importing(instance.cr, client.store, client.hist, true) && Going(client.store, client.hist)
      requires vmName == "" || vmName == client.store.cr.targetVMName
      modifies provider, instance, client, client.seen`phases, client.seen`fit, client.seen`bad
      ensures Accounted(old(client.troubled), client.troubled, ok)
      ensures Untroubled(old(client.hist), client.hist, client.troubled)
      ensures old(client.seen.bad) ==> client.seen.bad
      ensures Blamed(old(client.store).cr, client.store.cr, client.troubled, client.seen.bad)
      ensures if seen.Found?
              then && dvID in client.seen.phases
                   && client.seen.phases == old(client.seen.phases)[dvID := client.seen.phases[dvID]]
                   && (complete <==> client.seen.phases[dvID] == Complete)
              else client.seen.phases == old(client.seen.phases) && !complete
      ensures seen.NotFound? ==> dvID !in old(client.store).dvs
      ensures OnlyFinalizers(old(instance.cr), instance.cr)
      ensures Importing(instance.cr, client.store, client.hist, true)
      ensures Carried(old(client.store), old(client.hist), client.store, client.hist)
      ensures client.store.cr.targetVMName == old(client.store).cr.targetVMName
      ensures ok && !stop ==> Going(client.store, client.hist)
      ensures complete ==> ok && !stop && progress.Some? && dvID in old(client.store).dvs
      ensures ok ==> !seen.Unreadable?
      ensures ok && seen.NotFound? && !valid ==> Deciding(client.store.cr) == Some((False, DataVolumeCreationFailed))
      ensures ok && seen.NotFound? && valid && made ==>
                && OutcomeOf(client.store.cr) == OutcomeOf(old(client.store).cr)
                && dvID in client.store.dvs && dvID in client.store.cr.dataVolumes
      ensures ok && seen.NotFound? && valid && !made ==>
                Deciding(client.store.cr) == Some((False, DataVolumeCreationFailed))
      ensures ok ==> (stop <==> seen.NotFound? && valid && !made)
      ensures ok && stop ==> client.store.cr.progress == Some(PROGRESS_DONE) && OutcomeOf(client.store.cr) == Failed
      ensures ok ==> (progress.Some? <==> seen.Found?)
      ensures complete ==> OutcomeOf(client.store.cr) == OutcomeOf(old(client.store).cr)
    {
      hide Importing, Carried, OnlyRemoved, Positive, OutcomeOf, ConditionsWritten, ProgressWritten;
      ghost var s, h := client.store, client.hist;
      Refl(s, h);
      ImportingMeans(instance.cr, s, h, true);
      stop, complete, progress := false, false, None;
      seen, valid, made := Unreadable, false, false;
      ok := client.Ask();  // the watch on the importer pod
      if !ok {
        return;
      }
      var found, phase := client.GetDataVolume(dvID);
      seen := found;
      if found.NotFound? {
        var fit;
        ok, fit := provider.ValidateDiskStatus(dvID);
        valid := fit;
        if !ok {
          return;
        }
        if fit {
          ok := CreateDataVolume(provider, instance, dvID, vmName);
          made := ok;
          if !ok {
            ghost var t, g := client.store, client.hist;
            ok := EndAsFailed(provider, instance, DataVolumeCreationFailed);
            Trans(s, h, t, g, client.store, client.hist);
            RemovedTarget(t, client.store);
            stop := true;
          }
        } else {
          ok := EndAsFailed(provider, instance, DataVolumeCreationFailed);
          RemovedTarget(s, client.store);
        }
      } else if found.Found? {
        ghost var crashing;
        ok, complete, crashing := FollowDataVolume(provider, instance, phase);
        RemovedTarget(s, client.store);
        var reported: Option<Percent> := *;
        progress := Some(reported.GetOr(0.0));
      } else {
        ok := false;
      }
    }

    /** What an existing data volume means for the import, by its phase. */
    method FollowDataVolume(provider: SourceProvider, instance: Snapshot, phase: Phase)
      returns (ok: bool, complete: bool, ghost crashing: bool)
      requires provider.client == client && client.seen.ready
      requires Importing(instance.cr, client.store, client.hist, true) && Going(client.store, client.hist)
      requires phase == FailedPhase ==> client.seen.bad
      modifies provider, instance, client, client.seen`bad
      ensures Accounted(old(client.troubled), client.troubled, ok)
      ensures Untroubled(old(client.hist), client.hist, client.troubled)
      ensures old(client.seen.bad) ==> client.seen.bad
      ensures Blamed(old(client.store).cr, client.store.cr, client.troubled, client.seen.bad)
      ensures OnlyFinalizers(old(instance.cr), instance.cr)
      ensures Importing(instance.cr, client.store, client.hist, true)
      ensures Carried(old(client.store), old(client.hist), client.store, client.hist)
      ensures OnlyRemoved(old(client.store), client.store)
      ensures ok ==> Going(client.store, client.hist)
      ensures complete ==> ok && OutcomeOf(client.store.cr) == OutcomeOf(old(client.store).cr)
      ensures complete <==> phase == Complete
      ensures ok && phase == FailedPhase ==> Deciding(client.store.cr) == Some((False, DataVolumeCreationFailed))
      ensures ok && (phase == PendingPhase || (phase == ImportInProgress && !crashing)) ==>
                OutcomeOf(client.store.cr) == OutcomeOf(old(client.store).cr)
      ensures ok && phase == PendingPhase ==> Doing(client.store.cr) == Some((True, Pending))
      ensures ok && phase == ImportInProgress ==>
                if crashing then Deciding(client.store.cr) == Some((False, DataVolumeCreationFailed))
                else Doing(client.store.cr) == Some((True, CopyingDisks))
      ensures phase == Complete || phase == OtherPhase ==> ok && client.store == old(client.store)
    {
      hide Importing, Carried, OnlyRemoved, Positive, OutcomeOf, ConditionsWritten, ProgressWritten;
      ghost var s, h := client.store, client.hist;
      Refl(s, h);
      ImportingMeans(instance.cr, s, h, true);
      ok, complete, crashing := true, false, false;
      match phase
      case Complete =>
        complete := true;
      case FailedPhase =>
        ok := EndAsFailed(provider, instance, DataVolumeCreationFailed);
      case PendingPhase =>
        ok := SetProcessing(Pending, True);
        ConditionsStep(instance.cr, s, h, client.store, client.hist, true, ok);
      case ImportInProgress =>
        ok := SetProcessing(CopyingDisks, True);
        ghost var t, g := client.store, client.hist;
        ConditionsStep(instance.cr, s, h, t, g, true, ok);
        if ok {
          ok, crashing := CheckImporterPod(provider, instance);
          Trans(s, h, t, g, client.store, client.hist);
        }
      case OtherPhase =>
    }

    /** The loop of importDisks: every data volume is looked at, in any order. After a failure at least
        one of them is not done. */
    method LookAtDisks(provider: SourceProvider, instance: Snapshot, vmName: string, names: set<string>)
      returns (ok: bool, stop: bool, dvsDone: map<string, bool>, dvsImportProgress: map<string, Percent>)
      requires provider.client == client && client.seen.ready
      requires Importing(instance.cr, client.store, client.hist, true) && Going(client.store, client.hist)
      requires vmName == client.store.cr.targetVMName
      requires OutcomeOf(client.store.cr) == Failed <==> vmName == ""
      requires client.seen.phases == map[]
      modifies provider, instance, client, client.seen`phases, client.seen`fit, client.seen`bad
      ensures Accounted(old(client.troubled), client.troubled, ok)
      ensures Untroubled(old(client.hist), client.hist, client.troubled)
      ensures old(client.seen.bad) ==> client.seen.bad
      ensures Blamed(old(client.store).cr, client.store.cr, client.troubled, client.seen.bad)
      ensures OnlyFinalizers(old(instance.cr), instance.cr)
      ensures Importing(instance.cr, client.store, client.hist, true)
      ensures Carried(old(client.store), old(client.hist), client.store, client.hist)
      ensures client.seen.phases.Keys <= names
      ensures ok && stop ==>
                && client.store.cr.progress == Some(PROGRESS_DONE) && OutcomeOf(client.store.cr) == Failed
                && client.seen.phases.Keys != names
      ensures ok && !stop ==>
                && client.store.cr.targetVMName == vmName
                && Tallied(names, client.seen.phases, dvsDone, dvsImportProgress, old(client.store).dvs,
                           OutcomeOf(client.store.cr) == Failed, vmName == "")
    {
      hide Importing, Carried, OutcomeOf, Untroubled, Blamed, Tallied;
      ghost var inst, s, h := instance.cr, client.store, client.hist;
      Refl(s, h);
      Calm(s, h, client.troubled, client.seen.bad);
      ok, stop, dvsDone, dvsImportProgress := true, false, map[], map[];
      var todo := names;
      NothingTallied(s.dvs, OutcomeOf(s.cr) == Failed, vmName == "");
      assert names - todo == {};
      while todo != {}
        invariant todo <= names && ok && !stop
        invariant old(client.troubled) ==> client.troubled
        invariant Untroubled(h, client.hist, client.troubled)
        invariant old(client.seen.bad) ==> client.seen.bad
        invariant Blamed(s.cr, client.store.cr, client.troubled, client.seen.bad)
        invariant OnlyFinalizers(inst, instance.cr)
        invariant Importing(instance.cr, client.store, client.hist, true) && Going(client.store, client.hist)
        invariant Carried(s, h, client.store, client.hist)
        invariant client.store.cr.targetVMName == vmName
        invariant client.seen.phases.Keys <= names - todo
        invariant Tallied(names - todo, client.seen.phases, dvsDone, dvsImportProgress, s.dvs,
                          OutcomeOf(client.store.cr) == Failed, vmName == "")
      {
        var dvID :| dvID in todo;
        ghost var before, t, g := instance.cr, client.store, client.hist;
        ghost var troubled, bad, phases := client.troubled, client.seen.bad, client.seen.phases;
        var complete, progress;
        ghost var seen, valid, made;
        ok, stop, complete, progress, seen, valid, made := ImportDisk(provider, instance, dvID, vmName);
        Trans(s, h, t, g, client.store, client.hist);
        UntroubledMore(h, g, client.hist, troubled, client.troubled);
        BlamedMore(s.cr, t.cr, client.store.cr, troubled, bad, client.troubled, client.seen.bad);
        StillThere(s, h, t, g);
        StillThere(t, g, client.store, client.hist);
        if !ok || stop {
          return;
        }
        NothingYet(before, t, g);
        TalliedOneMore(names - todo, phases, client.seen.phases, dvsDone, dvsImportProgress, s.dvs, t.dvs,
                       OutcomeOf(t.cr) == Failed, OutcomeOf(client.store.cr) == Failed, vmName == "", dvID, complete,
                       progress);
        assert names - (todo - {dvID}) == (names - todo) + {dvID};
        todo := todo - {dvID};
        if complete {
          dvsDone := dvsDone[dvID := true];
        }
        if progress.Some? {
          dvsImportProgress := dvsImportProgress[dvID := progress.value];
        }
      }
      assert names - todo == names;
    }

    /** Done means that each data volume was found complete, and then nothing has failed on the way. The
        import's progress is at least that of the disks. */
    method ImportDisks(provider: SourceProvider, instance: Snapshot, vmName: string)
      returns (ok: bool, done: bool, ghost reported: map<string, Percent>)
      requires provider.client == client && client.seen.ready && client.seen.prepared
      requires Importing(instance.cr, client.store, client.hist, true) && Going(client.store, client.hist)
      requires vmName == client.store.cr.targetVMName
      requires OutcomeOf(client.store.cr) == Failed <==> vmName == ""
      requires client.seen.phases == map[]
      modifies provider, instance, client, client.seen`mapped, client.seen`phases, client.seen`fit, client.seen`bad
      ensures Accounted(old(client.troubled), client.troubled, ok)
      ensures Untroubled(old(client.hist), client.hist, client.troubled)
      ensures old(client.seen.bad) ==> client.seen.bad
      ensures Blamed(old(client.store).cr, client.store.cr, client.troubled, client.seen.bad)
      ensures ok ==> (done <==> AllComplete(client.seen))
      ensures ok && OutcomeOf(client.store.cr) != Failed ==> Looked(client.seen, old(client.store).dvs)
      ensures OnlyFinalizers(old(instance.cr), instance.cr)
      ensures Importing(instance.cr, client.store, client.hist, true)
      ensures Carried(old(client.store), old(client.hist), client.store, client.hist)
      ensures ok && done ==>
                && OutcomeOf(client.store.cr) == Undecided
                && client.store.cr.targetVMName == vmName && vmName != ""
                && AtLeast(client.store.cr.progress, PROGRESS_COPYING_DISKS)
                && AllComplete(client.seen)
                && reported.Keys == client.seen.mapped
      ensures ok ==> |reported| <= |client.seen.mapped| != 0
                     && AtLeast(client.store.cr.progress, DiskStage(reported, |client.seen.mapped|))
    {
      hide Importing, Carried, OnlyRemoved, OnlyFinalizers, Positive, OutcomeOf, ConditionsWritten, ProgressWritten,
           DiskStage;
      ghost var s, h := client.store, client.hist;
      Refl(s, h);
      OnlyFinalizersRefl(instance.cr);
      done, reported := false, map[];
      var names;
      ok, names := provider.MapDataVolumes();
      if !ok {
        return;
      }
      var stop, dvsDone, dvsImportProgress;
      ok, stop, dvsDone, dvsImportProgress := LookAtDisks(provider, instance, vmName, names);
      if !ok || stop {
        NoDisksStage(|names|);
        return;
      }
      CardinalityOfSubset(dvsImportProgress.Keys, names);
      reported := dvsImportProgress;
      var currentProgress := DisksImportProgress(dvsImportProgress, |names|);
      ghost var t, g := client.store, client.hist;
      ok := UpdateProgress(instance, currentProgress);
      ProgressStep(instance.cr, t, g, client.store, client.hist, currentProgress, true, ok);
      Trans(s, h, t, g, client.store, client.hist);
      if !ok {
        return;
      }
      var count := CountImportedDataVolumes(dvsDone);
      done := count == |names|;
      assert Done(dvsDone) == dvsDone.Keys;
      EqualCountsMeanAllDone(Done(dvsDone), names);
      ImportingMeans(instance.cr, client.store, client.hist, true);
    }

    // -------------------------------------------------------------------------------------------
    // Creating the target VM and converting its guest

    method UpdateTargetVMName(name: string) returns (ok: bool)
      modifies client
      ensures Accounted(old(client.troubled), client.troubled, ok)
      ensures Untroubled(old(client.hist), client.hist, client.troubled)
      ensures client.hist == old(client.hist).(sound := client.hist.sound)
              && (client.hist.sound ==> old(client.hist).sound)
      ensures client.store == if ok then old(client.store).(cr := old(client.store).cr.(targetVMName := name))
                              else old(client.store)
    {
      var cr;
      ok, cr := client.GetImport();
      if ok {
        ok := client.WriteImport(client.store.cr.(targetVMName := name));
      }
    }

    /** An import fails without progress being raised when no template matches or no VM can be made. */
    method FailCreation(provider: SourceProvider, instance: Snapshot, reason: Reason) returns (ok: bool)
      requires provider.client == client && client.seen.ready
      requires reason != VirtualMachineReady && reason != VirtualMachineRunning
      requires Importing(instance.cr, client.store, client.hist, true)
      modifies provider, instance, client
      ensures Accounted(old(client.troubled), client.troubled, ok)
      ensures Untroubled(old(client.hist), client.hist, client.troubled)
      ensures OnlyFinalizers(old(instance.cr), instance.cr)
      ensures Importing(instance.cr, client.store, client.hist, true)
      ensures Carried(old(client.store), old(client.hist), client.store, client.hist)
      ensures OnlyRemoved(old(client.store), client.store)
      ensures client.store.cr.progress == old(client.store).cr.progress
      ensures ok ==> OutcomeOf(client.store.cr) == Failed && client.hist.cleanup.done
      ensures ok ==>
                && Deciding(client.store.cr) == Some((False, reason))
                && Doing(client.store.cr) == Some((False, ProcessingFailed))
    {
      hide Importing, Carried, OnlyRemoved, Positive, OutcomeOf, ConditionsWritten;
      ghost var s, h := client.store, client.hist;
      ImportingMeans(instance.cr, s, h, true);
      var processing := MakeCondition(Processing, ProcessingFailed, False);
      ok := FailWith(reason, [processing]);
      ghost var t, g := client.store, client.hist;
      ConditionsStep(instance.cr, s, h, t, g, true, ok);
      if ok {
        ok := AfterFailure(provider, instance);
        Trans(s, h, t, g, client.store, client.hist);
        ImportingMeans(instance.cr, client.store, client.hist, true);
      } else {
        Unwritten(s, h, t, g);
      }
    }

    /** The VM from its template; without one that matches and can be processed it is made from nothing, if
        the cluster is set up for that. */
    method MakeSpec() returns (ok: bool, matched: bool)
      modifies client`troubled, client.seen`spec
      ensures Accounted(old(client.troubled), client.troubled, ok && matched)
      ensures if ok then matched && client.seen.spec == Mapped
              else if client.seen.spec.Denied? then matched == client.seen.spec.matched
              else matched && (client.seen.spec.Processed? || client.seen.spec.Empty?)
    {
      matched := client.FindTemplate();
      ok := false;
      if matched {
        ok := client.ProcessTemplate();
      }
      if !ok {
        ok := client.CreateEmptyVM();
        matched := matched || ok;
      }
      if ok {
        ok := client.MapVM();
      }
    }

    /** From the template to the VM that is to be created. A template that does not match fails the
        import; that and everything else that goes wrong ends the reconcile. */
    method PrepareVM(provider: SourceProvider, instance: Snapshot)
      returns (ok: bool, ghost matched: bool, ghost ended: bool)
      requires provider.client == client && client.seen.ready
      requires Importing(instance.cr, client.store, client.hist, true)
      requires OutcomeOf(client.store.cr) == Undecided
      modifies provider, instance, client, client.seen`spec
      ensures Accounted(old(client.troubled), client.troubled, ok)
      ensures Untroubled(old(client.hist), client.hist, client.troubled)
      ensures !matched ==> client.troubled && client.seen.spec == Denied(false)
      ensures OnlyFinalizers(old(instance.cr), instance.cr)
      ensures Importing(instance.cr, client.store, client.hist, true)
      ensures Carried(old(client.store), old(client.hist), client.store, client.hist)
      ensures client.store.cr.targetVMName == old(client.store).cr.targetVMName
      ensures ok ==> client.seen.spec == Mapped
      ensures ok ==> matched && Doing(client.store.cr) == Some((True, CreatingTargetVM))
      ensures matched ==> OutcomeOf(client.store.cr) == Undecided
      ensures ended ==>
                && !matched && Deciding(client.store.cr) == Some((False, VMTemplateMatchingFailed))
                && client.hist.cleanup.done && client.store.cr.progress == old(client.store).cr.progress
    {
      hide Importing, Carried, OnlyRemoved, OnlyFinalizers, Positive, OutcomeOf, ConditionsWritten, ProgressWritten;
      ghost var s, h := client.store, client.hist;
      OnlyFinalizersRefl(instance.cr);
      ImportingMeans(instance.cr, s, h, true);
      matched, ended := true, false;
      ok := SetProcessing(VMTemplateMatching, True);
      ghost var t, g := client.store, client.hist;
      ConditionsStep(instance.cr, s, h, t, g, true, ok);
      if !ok {
        return;
      }
      var fits;
      ok, fits := MakeSpec();
      if !fits {
        ok := FailCreation(provider, instance, VMTemplateMatchingFailed);
        Trans(s, h, t, g, client.store, client.hist);
        RemovedTarget(t, client.store);
        return false, false, ok;
      }
      if !ok {
        return;
      }
      ok := AnnounceVM(instance);
      Trans(s, h, t, g, client.store, client.hist);
    }

    /** With the VM mapped, the import says that it is creating it. */
    method AnnounceVM(instance: Snapshot) returns (ok: bool)
      requires Importing(instance.cr, client.store, client.hist, true)
      requires OutcomeOf(client.store.cr) == Undecided
      modifies client
      ensures Accounted(old(client.troubled), client.troubled, ok)
      ensures Untroubled(old(client.hist), client.hist, client.troubled)
      ensures Importing(instance.cr, client.store, client.hist, true)
      ensures Carried(old(client.store), old(client.hist), client.store, client.hist)
      ensures client.store.cr.targetVMName == old(client.store).cr.targetVMName
      ensures OutcomeOf(client.store.cr) == Undecided
      ensures ok ==> Doing(client.store.cr) == Some((True, CreatingTargetVM))
    {
      hide Importing, Carried, OnlyRemoved, Positive, OutcomeOf, ConditionsWritten, ProgressWritten;
      ghost var s, h := client.store, client.hist;
      ok := UpdateProgress(instance, PROGRESS_START);
      ghost var t, g := client.store, client.hist;
      ProgressStep(instance.cr, s, h, t, g, PROGRESS_START, true, ok);
      if !ok {
        return;
      }
      ok := client.Ask();  // the owner reference
      if !ok {
        return;
      }
      ImportingMeans(instance.cr, t, g, true);
      ok := SetProcessing(CreatingTargetVM, True);
      ConditionsStep(instance.cr, t, g, client.store, client.hist, true, ok);
      Trans(s, h, t, g, client.store, client.hist);
    }

    /** Returns the name of the VM now recorded as the target. When the VM could not be created and
        the clean-up went well, it returns an empty name and no error. */
    method CreateVM(provider: SourceProvider, instance: Snapshot) returns (ok: bool, name: string)
      requires provider.client == client && client.seen.ready
      requires Importing(instance.cr, client.store, client.hist, true)
      requires OutcomeOf(client.store.cr) == Undecided
      requires instance.cr.targetVMName == "" == client.store.cr.targetVMName
      modifies provider, instance, client, client.seen`spec
      ensures Accounted(old(client.troubled), client.troubled, ok)
      ensures Untroubled(old(client.hist), client.hist, client.troubled)
      ensures Blamed(old(client.store).cr, client.store.cr, client.troubled, client.seen.bad)
      ensures OnlyFinalizers(old(instance.cr), instance.cr)
      ensures Importing(instance.cr, client.store, client.hist, true)
      ensures Carried(old(client.store), old(client.hist), client.store, client.hist)
      ensures ok ==> name == client.store.cr.targetVMName && Going(client.store, client.hist)
      ensures ok ==> (OutcomeOf(client.store.cr) == Failed <==> name == "")
      ensures ok && name != "" ==> name in client.store.vms
      ensures ok && name != "" ==> Doing(client.store.cr) == Some((True, CreatingTargetVM))
                                   && AtLeast(client.store.cr.progress, 5)
      ensures ok && name == "" ==> Deciding(client.store.cr) == Some((False, VMCreationFailed))
    {
      hide Importing, Carried, OnlyRemoved, Positive, OutcomeOf;
      ghost var s, h := client.store, client.hist;
      name := "";
      ghost var matched, ended;
      ok, matched, ended := PrepareVM(provider, instance);
      if !ok {
        return;
      }
      ghost var t, g := client.store, client.hist;
      ImportingMeans(instance.cr, t, g, true);
      var wanted: string := *;  // empty when the source VM has no usable name
      var result, created := client.CreateVM(wanted);
      ghost var t', g' := client.store, client.hist;
      VMStep(instance.cr, t, g, t', g', created);
      Trans(s, h, t, g, t', g');
      if result.CreationFailed? {
        ok := FailCreation(provider, instance, VMCreationFailed);
        Trans(s, h, t', g', client.store, client.hist);
        RemovedTarget(t', client.store);
        return ok, "";
      }
      ok, name := RecordTarget(instance, created);
      Trans(s, h, t', g', client.store, client.hist);
    }

    /** The created VM is read back and recorded as the target. */
    method RecordTarget(instance: Snapshot, created: string) returns (ok: bool, name: string)
      requires Importing(instance.cr, client.store, client.hist, true)
      requires OutcomeOf(client.store.cr) == Undecided
      requires instance.cr.targetVMName == "" == client.store.cr.targetVMName
      modifies client
      ensures Accounted(old(client.troubled), client.troubled, ok)
      ensures Untroubled(old(client.hist), client.hist, client.troubled)
      ensures Importing(instance.cr, client.store, client.hist, true)
      ensures Carried(old(client.store), old(client.hist), client.store, client.hist)
      ensures OutcomeOf(client.store.cr) == Undecided
      ensures ok ==> name == created != "" && name == client.store.cr.targetVMName && name in client.store.vms
      ensures ok ==> AtLeast(client.store.cr.progress, 5)
      ensures client.store.cr.conditions == old(client.store).cr.conditions
    {
      hide Importing, Carried, OnlyRemoved, Positive, OutcomeOf, ConditionsWritten, ProgressWritten;
      ghost var s, h := client.store, client.hist;
      Refl(s, h);
      ImportingMeans(instance.cr, s, h, true);
      name := "";
      ok := client.GetVM(created);
      if !ok {
        return;
      }
      ok := UpdateTargetVMName(created);
      ghost var t, g := client.store, client.hist;
      TargetStep(instance.cr, s, h, t, g, created);
      if !ok {
        return;
      }
      ok := UpdateProgress(instance, PROGRESS_CREATING_VM);
      ProgressStep(instance.cr, t, g, client.store, client.hist, PROGRESS_CREATING_VM, true, ok);
      Trans(s, h, t, g, client.store, client.hist);
      name := created;
    }

    /** Launches the job of a guest conversion that has not begun. */
    method StartConversion(provider: SourceProvider, instance: Snapshot) returns (ok: bool, job: Job)
      requires provider.client == client && client.seen.ready
      requires Importing(instance.cr, client.store, client.hist, true)
      requires OutcomeOf(client.store.cr) == Undecided && client.store.cr.progress.Some?
      modifies client, client.seen`job, client.seen`bad
      ensures old(client.seen.bad) ==> client.seen.bad
      ensures Accounted(old(client.troubled), client.troubled, ok)
      ensures Untroubled(old(client.hist), client.hist, client.troubled)
      ensures Importing(instance.cr, client.store, client.hist, true)
      ensures Carried(old(client.store), old(client.hist), client.store, client.hist)
      ensures client.store.cr.targetVMName == old(client.store).cr.targetVMName
      ensures OutcomeOf(client.store.cr) == Undecided && client.store.cr.progress.Some?
      ensures ok ==>
                && client.seen.job == Some(job) && (job.failed > 0 ==> client.seen.bad)
                && Doing(client.store.cr) == Some((True, ConvertingGuest))
                && AtLeast(client.store.cr.progress, 70)
    {
      hide Importing, Carried, OnlyRemoved, Positive, OutcomeOf, ConditionsWritten, ProgressWritten;
      ghost var s, h := client.store, client.hist;
      Refl(s, h);
      ImportingMeans(instance.cr, s, h, true);
      ok, job := provider.LaunchGuestConversionJob();
      if !ok {
        return;
      }
      ok := Announce(instance, ConvertingGuest, PROGRESS_CONVERTING_GUEST);
    }

    method ConvertGuest(provider: SourceProvider, instance: Snapshot, vmName: string) returns (ok: bool, done: bool)
      requires provider.client == client && client.seen.ready
      requires Importing(instance.cr, client.store, client.hist, true)
      requires OutcomeOf(client.store.cr) == Undecided && client.store.cr.progress.Some?
      modifies provider, instance, client, client.seen`job, client.seen`bad
      ensures Accounted(old(client.troubled), client.troubled, ok)
      ensures Untroubled(old(client.hist), client.hist, client.troubled)
      ensures old(client.seen.bad) ==> client.seen.bad
      ensures Blamed(old(client.store).cr, client.store.cr, client.troubled, client.seen.bad)
      ensures OnlyFinalizers(old(instance.cr), instance.cr)
      ensures Importing(instance.cr, client.store, client.hist, true)
      ensures Carried(old(client.store), old(client.hist), client.store, client.hist)
      ensures client.store.cr.targetVMName == old(client.store).cr.targetVMName
      ensures ok && done ==>
                && OutcomeOf(client.store.cr) == Undecided && client.store.cr.progress.Some?
                && client.seen.job.Some? && client.seen.job.value.active == 0
                && client.seen.job.value.failed == 0 && client.seen.job.value.succeeded > 0
      ensures ok ==> client.seen.job.Some? && vmName in old(client.store).vms
      ensures ok && client.seen.job.value.active == 0 && client.seen.job.value.failed > 0 ==>
                && Deciding(client.store.cr) == Some((False, GuestConversionFailed))
                && client.store.cr.progress == Some(PROGRESS_DONE) && client.hist.cleanup.done
      ensures ok && (client.seen.job.value.active > 0 || client.seen.job.value.failed == 0) ==>
                && OutcomeOf(client.store.cr) == Undecided
                && (done <==> client.seen.job.value.active == 0 && client.seen.job.value.succeeded > 0)
    {
      hide Importing, Carried, OnlyRemoved, OnlyFinalizers, Positive, OutcomeOf, ConditionsWritten, ProgressWritten;
      ghost var s, h := client.store, client.hist;
      Refl(s, h);
      OnlyFinalizersRefl(instance.cr);
      ImportingMeans(instance.cr, s, h, true);
      done := false;
      ok := client.GetVM(vmName);
      if !ok {
        return;
      }
      var found;
      ok, found := provider.GetGuestConversionJob();
      if !ok {
        return;
      }
      var job := found.GetOr(Job(0, 0, 0));
      if found.None? {
        ok, job := StartConversion(provider, instance);
        if !ok {
          return;
        }
      }
      if job.active > 0 {
        return;
      }
      if job.failed > 0 {
        ghost var t, g := client.store, client.hist;
        ok := EndAsFailed(provider, instance, GuestConversionFailed);
        Trans(s, h, t, g, client.store, client.hist);
        RemovedTarget(t, client.store);
        return;
      }
      done := job.succeeded > 0;
    }

    // -------------------------------------------------------------------------------------------
    // Ending an import well

    /** The Succeeded condition and, if the snapshot has one, the Processing condition marked as
        completed. */
    method UpdateConditionsAfterSuccess(instance: Snapshot, reason: Reason) returns (ok: bool)
      requires Unique(client.store.cr.conditions)
      requires reason == VirtualMachineReady || reason == VirtualMachineRunning
      modifies client
      ensures Accounted(old(client.troubled), client.troubled, ok)
      ensures Untroubled(old(client.hist), client.hist, client.troubled)
      ensures ConditionsWritten(old(client.store), old(client.hist), client.store, client.hist, ok)
      ensures Positive(client.store.cr) == Positive(old(client.store).cr)
      ensures ok ==> OutcomeOf(client.store.cr) == if reason == VirtualMachineReady then Ready else Running
      ensures ok ==> Doing(client.store.cr)
                     == if Find(instance.cr.conditions, Processing).Some? then Some((True, ProcessingCompleted))
                        else Doing(old(client.store).cr)
    {
      hide LastState, ConditionsWritten;
      var succeeded := MakeCondition(Succeeded, reason, True);
      ghost var before := client.store.cr.conditions;
      var i := FindConditionOfType(instance.cr.conditions, Processing);
      if i < |instance.cr.conditions| {
        var processing := instance.cr.conditions[i].(status := True, reason := ProcessingCompleted);
        ok := UpsertStatusConditions([succeeded, processing]);
        LastOfTwo(succeeded, processing, Processing, StateOf(before, Processing));
        LastOfTwo(succeeded, processing, Succeeded, StateOf(before, Succeeded));
        LastOfTwo(succeeded, processing, Valid, StateOf(before, Valid));
        LastOfTwo(succeeded, processing, MappingRulesVerified, StateOf(before, MappingRulesVerified));
      } else {
        ok := UpsertStatusConditions([succeeded]);
        LastOfOne(succeeded, Processing, StateOf(before, Processing));
        LastOfOne(succeeded, Succeeded, StateOf(before, Succeeded));
        LastOfOne(succeeded, Valid, StateOf(before, Valid));
        LastOfOne(succeeded, MappingRulesVerified, StateOf(before, MappingRulesVerified));
      }
    }

    /** A successful import can no longer be cancelled; from here on its success counts. */
    method CountSuccess(instance: Snapshot, ghost most: nat)
      requires Won(instance.cr, client.store, client.hist, startVM, most)
      requires most < (if OutcomeOf(client.store.cr) == Running then 2 else 1)
      requires client.store.cr.progress == Some(PROGRESS_DONE)
      modifies instance, client
      ensures Accounted(old(client.troubled), client.troubled, true)
      ensures Untroubled(old(client.hist), client.hist, client.troubled)
      ensures OnlyFinalizers(old(instance.cr), instance.cr)
      ensures Won(instance.cr, client.store, client.hist, startVM, most + 1)
      ensures Carried(old(client.store), old(client.hist), client.store, client.hist)
      ensures client.hist.succeeded == old(client.hist).succeeded + 1
      ensures OutcomeOf(client.store.cr) == OutcomeOf(old(client.store).cr)
    {
      hide Won, Carried, OnlyFinalizers, OutcomeOf, Without, FinalizersWritten;
      ghost var inst, s, h := instance.cr, client.store, client.hist;
      WonMeans(inst, s, h, startVM, most);
      var ok := RemoveFinalizer(instance, CancelledImport, client);
      ghost var h' := client.hist;
      client.hist := client.hist.(succeeded := client.hist.succeeded + 1);
      SuccessCounted(inst, s, h, instance.cr, client.store, h', client.hist, startVM, most, ok);
    }

    method AfterSuccess(provider: SourceProvider, instance: Snapshot, ghost most: nat) returns (ok: bool)
      requires provider.client == client && client.seen.ready
      requires Won(instance.cr, client.store, client.hist, startVM, most)
      requires most < (if OutcomeOf(client.store.cr) == Running then 2 else 1)
      requires client.store.cr.progress == Some(PROGRESS_DONE)
      modifies provider, instance, client
      ensures Accounted(old(client.troubled), client.troubled, ok)
      ensures Untroubled(old(client.hist), client.hist, client.troubled)
      ensures OnlyFinalizers(old(instance.cr), instance.cr)
      ensures Won(instance.cr, client.store, client.hist, startVM, most + 1) && Released(client.store, client.hist)
      ensures Carried(old(client.store), old(client.hist), client.store, client.hist)
      ensures client.hist.succeeded == old(client.hist).succeeded + 1
      ensures OutcomeOf(client.store.cr) == OutcomeOf(old(client.store).cr)
    {
      hide Won, Carried, OnlyFinalizers, Positive, OutcomeOf, Released, CleanedUp, ListedGone;
      ghost var inst, s, h := instance.cr, client.store, client.hist;
      CountSuccess(instance, most);
      ghost var inst', t, g := instance.cr, client.store, client.hist;
      WonMeans(inst', t, g, startVM, most + 1);
      ok := provider.CleanUp(false, instance);
      SuccessCleaned(inst', t, g, instance.cr, client.store, client.hist, startVM, most + 1, ok);
      OnlyFinalizersTrans(inst, inst', instance.cr);
      Trans(s, h, t, g, client.store, client.hist);
      var purged := client.Ask();
      ok := ok && purged;
    }

    /** The end of an import whose VM was found running. */
    method EndRunning(provider: SourceProvider, instance: Snapshot) returns (ok: bool)
      requires provider.client == client && client.seen.ready && startVM
      requires Won(instance.cr, client.store, client.hist, startVM, 1) && Released(client.store, client.hist)
      requires OutcomeOf(client.store.cr) == Ready
      requires client.hist.succeeded > 0 ==> instance.cr.progress == Some(PROGRESS_DONE)
      modifies provider, instance, client
      ensures Accounted(old(client.troubled), client.troubled, ok)
      ensures Untroubled(old(client.hist), client.hist, client.troubled)
      ensures OnlyFinalizers(old(instance.cr), instance.cr)
      ensures exists most :: Won(instance.cr, client.store, client.hist, startVM, most)
      ensures Released(client.store, client.hist) && SuccessIsRun(client.store, client.hist, startVM)
      ensures Carried(old(client.store), old(client.hist), client.store, client.hist)
      ensures old(client.hist).succeeded <= client.hist.succeeded
      ensures ok ==>
                OutcomeOf(client.store.cr) == Running && client.hist.succeeded == old(client.hist).succeeded + 1
    {
      hide Won, Carried, Positive, OutcomeOf, Released, ConditionsWritten, ProgressWritten;
      ghost var s, h := client.store, client.hist;
      WonMeans(instance.cr, s, h, startVM, 1);
      ok := UpdateConditionsAfterSuccess(instance, VirtualMachineRunning);
      ghost var t, g := client.store, client.hist;
      RunningStep(instance.cr, s, h, t, g, ok);
      if !ok {
        Unwritten(s, h, t, g);
        return;
      }
      ok := UpdateProgress(instance, PROGRESS_DONE);
      ghost var t', g' := client.store, client.hist;
      WonProgress(instance.cr, t, g, t', g', PROGRESS_DONE, startVM, 1, ok);
      Trans(s, h, t, g, t', g');
      if !ok {
        return;
      }
      ok := AfterSuccess(provider, instance, 1);
      Trans(s, h, t', g', client.store, client.hist);
    }

    /** Starts the imported VM, or notices that it is running. */
    method StartTargetVM(provider: SourceProvider, instance: Snapshot)
      returns (ok: bool)
      requires provider.client == client && client.seen.ready && startVM
      requires Won(instance.cr, client.store, client.hist, startVM, 1) && Released(client.store, client.hist)
      requires OutcomeOf(client.store.cr) == Ready
      requires client.hist.succeeded > 0 ==> instance.cr.progress == Some(PROGRESS_DONE)
      modifies provider, instance, client, client.seen`vmi
      ensures Accounted(old(client.troubled), client.troubled, ok)
      ensures Untroubled(old(client.hist), client.hist, client.troubled)
      ensures OnlyFinalizers(old(instance.cr), instance.cr)
      ensures exists most :: Won(instance.cr, client.store, client.hist, startVM, most)
      ensures Released(client.store, client.hist) && SuccessIsRun(client.store, client.hist, startVM)
      ensures Carried(old(client.store), old(client.hist), client.store, client.hist)
      ensures old(client.hist).succeeded <= client.hist.succeeded
      ensures ok ==> StartFollows(client.seen, client.store.cr)
      ensures client.seen.vmi.Some?
      ensures var vmi := client.seen.vmi.value;
              && (vmi.found.Unreadable? ==> !ok)
              && (ok && vmi.found.NotFound? ==> instance.cr.targetVMName in client.store.vms)
              && (ok && vmi.found.Found? && vmi.runs ==> client.hist.succeeded == old(client.hist).succeeded + 1)
              && (vmi.found.Unreadable? || (vmi.found.Found? && !vmi.runs) ==>
                    client.store == old(client.store) && client.hist == old(client.hist))
    {
      hide Won, Carried, Positive, OutcomeOf, Released, ConditionsWritten, ProgressWritten;
      ghost var s, h := client.store, client.hist;
      Refl(s, h);
      var vmi := client.GetVMI();
      assert Won(instance.cr, client.store, client.hist, startVM, 1);
      if vmi.found.Unreadable? {
        ok := false;
        return;
      }
      if vmi.found.NotFound? {
        ok := UpdateProgress(instance, PROGRESS_START_VM);
        WonProgress(instance.cr, s, h, client.store, client.hist, PROGRESS_START_VM, startVM, 1, ok);
        if ok {
          ok := client.GetVM(instance.cr.targetVMName);  // read and patched to run
        }
        assert Won(instance.cr, client.store, client.hist, startVM, 1);
        return;
      }
      if !vmi.runs {
        ok := true;
        return;
      }
      ok := EndRunning(provider, instance);
    }

    // -------------------------------------------------------------------------------------------
    // Deciding what to do

    method ShouldInvoke(instance: Snapshot) returns (invoke: bool)
      ensures invoke == !Positive(instance.cr)
    {
      var cs := instance.cr.conditions;
      var valid := FindConditionOfType(cs, Valid);
      var rules := FindConditionOfType(cs, MappingRulesVerified);
      return (valid == |cs| || cs[valid].status != True) || (rules == |cs| || cs[rules].status != True);
    }

    method ShouldReconcile(instance: Snapshot) returns (should: bool)
      requires Unique(instance.cr.conditions) && OutcomeOf(instance.cr) != Incoherent
      ensures should <==> OutcomeOf(instance.cr) == Undecided || (OutcomeOf(instance.cr) == Ready && startVM)
    {
      var i := FindConditionOfType(instance.cr.conditions, Succeeded);
      if i < |instance.cr.conditions| && instance.cr.conditions[i].reason == VirtualMachineReady && startVM {
        return true;
      }
      return i == |instance.cr.conditions|;
    }

    method HasSucceeded(instance: Snapshot, reasons: seq<Reason>) returns (has: bool)
      requires Unique(instance.cr.conditions) && OutcomeOf(instance.cr) != Incoherent
      requires reasons == [VirtualMachineReady] || reasons == [VirtualMachineReady, VirtualMachineRunning]
      ensures has <==> OutcomeOf(instance.cr) == Ready || (OutcomeOf(instance.cr) == Running && |reasons| == 2)
    {
      has := HasSucceededConditionOfReason(instance.cr.conditions, reasons);
    }

    // -------------------------------------------------------------------------------------------
    // Lookups and validation

    method UpsertValidationCondition(instance: Snapshot, reason: Reason) returns (ok: bool)
      requires Fresh(instance.cr, client.store) && Inv(client.store, client.hist, startVM)
      requires client.hist.sound ==> !Positive(instance.cr)
      modifies client
      ensures Accounted(old(client.troubled), client.troubled, ok)
      ensures Untroubled(old(client.hist), client.hist, client.troubled)
      ensures Inv(client.store, client.hist, startVM)
      ensures Reconciled(old(client.store), old(client.hist), client.store, client.hist)
      ensures client.store.cr.progress == old(client.store).cr.progress
      ensures client.hist.sound ==> !Positive(client.store.cr)
      ensures ok || client.refused
      ensures if ok
              then StateOf(client.store.cr.conditions, Valid) == Some((False, reason)) && !Positive(client.store.cr)
              else client.store == old(client.store)
      ensures client.hist == old(client.hist).(sound := client.hist.sound)
      ensures OutcomeOf(client.store.cr) == OutcomeOf(old(client.store).cr)
      ensures OnlyConditions(old(client.store), client.store)
    {
      hide Inv, Reconciled, ConditionsWritten, OutcomeOf;
      ghost var s, h := client.store, client.hist;
      InvMeans(s, h, startVM);
      var c := MakeCondition(Valid, reason, False);
      ok := UpsertStatusConditions([c]);
      InvalidWritten(c, s, h, client.store, client.hist, ok);
      InvalidStep(s, h, client.store, client.hist, startVM, ok);
    }

    /** Remembers that a lookup failed that the outcome of a validated import depends on, and says so in
        the import if there is something to say. */
    method LookupFailed(instance: Snapshot, reason: Option<Reason>) returns (ghost written: bool)
      requires Fresh(instance.cr, client.store) && Inv(client.store, client.hist, startVM)
      requires client.troubled
      modifies client
      ensures client.troubled
      ensures Untroubled(old(client.hist), client.hist, client.troubled)
      ensures Inv(client.store, client.hist, startVM)
      ensures Reconciled(old(client.store), old(client.hist), client.store, client.hist)
      ensures client.store.cr.progress == old(client.store).cr.progress
      ensures client.hist.sound ==> !Positive(client.store.cr)
      ensures if written
              then && reason.Some? && StateOf(client.store.cr.conditions, Valid) == Some((False, reason.value))
                   && !Positive(client.store.cr)
              else client.store == old(client.store)
      ensures reason.Some? ==> written || client.refused
      ensures client.hist == old(client.hist).(sound := client.hist.sound)
      ensures OutcomeOf(client.store.cr) == OutcomeOf(old(client.store).cr)
      ensures OnlyConditions(old(client.store), client.store)
    {
      hide Inv, Reconciled, OutcomeOf, Positive;
      ghost var s, h := client.store, client.hist;
      InvMeans(s, h, startVM);
      client.hist := h.(sound := h.sound && !Positive(instance.cr));
      ghost var g := client.hist;
      LookupFailedStep(s, h, g, startVM);
      written := false;
      if reason.Some? {
        var upserted := UpsertValidationCondition(instance, reason.value);
        written := upserted;
        ReconciledTrans(s, h, s, g, client.store, client.hist);
      }
    }

    method InitProvider(instance: Snapshot, provider: SourceProvider)
      returns (ok: bool, ghost secret: Lookup, ghost initialised: bool, ghost reachable: bool, ghost written: bool)
      requires Fresh(instance.cr, client.store) && Inv(client.store, client.hist, startVM)
      requires provider.client == client
      modifies client, client.seen`ready, client.seen`connected
      ensures ok ==> client.seen.ready && (instance.cr.progress.None? ==> client.seen.connected)
      ensures secret.Found? && initialised && instance.cr.progress.None? ==> reachable == client.seen.connected
      ensures Accounted(old(client.troubled), client.troubled, ok)
      ensures Untroubled(old(client.hist), client.hist, client.troubled)
      ensures ok ==> client.store == old(client.store) && client.hist == old(client.hist)
      ensures Inv(client.store, client.hist, startVM)
      ensures Reconciled(old(client.store), old(client.hist), client.store, client.hist)
      ensures client.store.cr.progress == old(client.store).cr.progress
      ensures !ok && client.hist.sound ==> !Positive(client.store.cr)
      ensures ok <==> secret.Found? && initialised && (instance.cr.progress.Some? || reachable)
      ensures if written
              then && !ok && !secret.Unreadable? && !Positive(client.store.cr)
                   && StateOf(client.store.cr.conditions, Valid)
                      == Some((False, if secret.NotFound? then SecretNotFound
                                      else if !initialised then UninitializedProvider else UnreachableProvider))
              else client.store == old(client.store)
      ensures ok || secret.Unreadable? || written || client.refused
      ensures client.hist == old(client.hist).(sound := client.hist.sound)
      ensures OnlyConditions(old(client.store), client.store)
      ensures OutcomeOf(client.store.cr) == OutcomeOf(old(client.store).cr)
    {
      hide Inv, Reconciled, OutcomeOf, Positive;
      ghost var s, h := client.store, client.hist;
      InvMeans(s, h, startVM);
      var found, init := provider.Init();
      secret, initialised, reachable, written := found, init, true, false;
      ok := found.Found? && init;
      if ok && instance.cr.progress.None? {
        ok := provider.TestConnection();
        reachable := ok;
      }
      if ok {
        return;
      }
      written := LookupFailed(instance, if found.Unreadable? then None else Some(ProviderFault(found, init)));
    }

    method FailNewImportProcess() returns (ok: bool)
      requires Inv(client.store, client.hist, startVM) && client.store.cr.progress.None?
      requires client.hist.sound ==> !Positive(client.store.cr)
      modifies client
      ensures Accounted(old(client.troubled), client.troubled, ok)
      ensures Untroubled(old(client.hist), client.hist, client.troubled)
      ensures Inv(client.store, client.hist, startVM)
      ensures Reconciled(old(client.store), old(client.hist), client.store, client.hist)
      ensures if ok then Deciding(client.store.cr) == Some((False, ValidationFailed))
              else client.store == old(client.store)
      ensures ok ==> OutcomeOf(client.store.cr) == Failed
      ensures OnlyConditions(old(client.store), client.store)
      ensures client.hist == old(client.hist).(sound := client.hist.sound)
    {
      hide Inv, Reconciled, ConditionsWritten, OutcomeOf, Positive;
      ghost var s, h := client.store, client.hist;
      InvMeans(s, h, startVM);
      ok := FailWith(ValidationFailed, []);
      StillCalm(s, h, client.store, client.hist, ok);
      FailNewStep(s, h, client.store, client.hist, startVM, ok);
    }

    /** Loads the source VM if it is still to be validated, and the resource mapping. */
    method FetchVM(instance: Snapshot, provider: SourceProvider)
      returns (ok: bool, ghost loaded: bool, ghost mapping: Lookup, ghost written: bool)
      requires provider.client == client && client.seen.ready && provider.vm.None?
      requires Fresh(instance.cr, client.store) && Inv(client.store, client.hist, startVM)
      modifies provider, client, client.seen`prepared
      ensures ok ==> client.seen.prepared
      ensures Accounted(old(client.troubled), client.troubled, ok)
      ensures Untroubled(old(client.hist), client.hist, client.troubled)
      ensures ok <==> loaded && mapping.Found?
      ensures if written
              then && !(loaded && mapping.Unreadable?) && !ok && !Positive(client.store.cr)
                   && StateOf(client.store.cr.conditions, Valid)
                      == Some((False, if loaded then ResourceMappingNotFound else SourceVMNotFound))
              else client.store == old(client.store)
      ensures ok || (loaded && mapping.Unreadable?) || written || client.refused
      ensures Positive(instance.cr) ==> loaded
      ensures ok ==> client.hist == old(client.hist)
      ensures ok ==> provider.vm == if Positive(instance.cr) then None else Some(client.store.power)
      ensures OnlyConditions(old(client.store), client.store)
      ensures OutcomeOf(client.store.cr) == OutcomeOf(old(client.store).cr)
      ensures Inv(client.store, client.hist, startVM)
      ensures Reconciled(old(client.store), old(client.hist), client.store, client.hist)
    {
      hide Inv, Reconciled, OutcomeOf, Positive;
      ghost var s, h := client.store, client.hist;
      InvMeans(s, h, startVM);
      ok, loaded, mapping, written := true, true, Unreadable, false;
      var invoke := ShouldInvoke(instance);
      if invoke {
        ok := provider.LoadVM();
        if !ok {
          var upserted := UpsertValidationCondition(instance, SourceVMNotFound);
          loaded, written := false, upserted;
          return;
        }
      }
      var found := client.FindMapping();
      mapping := found;
      if !found.Found? {
        written := LookupFailed(instance, if found.NotFound? then Some(ResourceMappingNotFound) else None);
        ok := false;
      }
    }

    method StoreSourceVMStatus(instance: Snapshot, status: Power) returns (ok: bool)
      modifies client
      ensures Accounted(old(client.troubled), client.troubled, ok)
      ensures Untroubled(old(client.hist), client.hist, client.troubled)
      ensures client.store == if ok then old(client.store).(cr := old(client.store).cr.(initialState := Some(status)))
                              else old(client.store)
      ensures client.hist == old(client.hist).(sound := old(client.hist).sound && ok)
    {
      ok := client.WriteImport(client.store.cr.(initialState := Some(status)));
    }

    /** Validates the import unless it has been validated positively before; then no validation is
        run. One that is run lets the import go on exactly when nothing that blocks was reported. */
    method ValidateImport(instance: Snapshot, provider: SourceProvider)
      returns (ok: bool, valid: bool, ghost ran: bool, ghost findings: Findings)
      requires provider.client == client && client.seen.ready
      requires provider.vm == if Positive(instance.cr) then None else Some(client.store.power)
      requires Fresh(instance.cr, client.store) && Inv(client.store, client.hist, startVM)
      requires OutcomeOf(client.store.cr) != Failed
      modifies provider, client
      ensures Accounted(old(client.troubled), client.troubled, ok || client.store.power == OtherPower)
      ensures Untroubled(old(client.hist), client.hist, client.troubled || client.store.power == OtherPower)
      ensures ran ==> !Positive(instance.cr)
      ensures ok ==> (ran <==> !Positive(instance.cr))
      ensures ok && ran ==> (valid <==> !Reported(provider.actions, findings.Mapping() + findings.Rules(), Block))
      ensures ok && !valid ==> !Positive(client.store.cr)
      ensures !ran && ok ==> valid && client.store == old(client.store) && client.hist == old(client.hist)
      ensures Inv(client.store, client.hist, startVM)
      ensures Reconciled(old(client.store), old(client.hist), client.store, client.hist)
      ensures Records(old(client.store), client.store) && client.store.power == old(client.store).power
      ensures ok && valid ==>
                && Positive(client.store.cr)
                && (provider.vm.Some? ==> provider.vm.value == client.store.power)
                && (ran ==> client.store.cr.initialState == Some(client.store.power))
                && Ahead(instance.cr, client.store)
      ensures OutcomeOf(client.store.cr) == OutcomeOf(old(client.store).cr)
      ensures client.store.dvs == old(client.store).dvs
    {
      hide Inv, Reconciled, OutcomeOf, ConditionsWritten, Positive, Ahead, Reported;
      ghost var s, h := client.store, client.hist;
      InvMeans(s, h, startVM);
      ran, findings := false, Findings(None, None, [], None, None);
      valid := true;
      var invoke := ShouldInvoke(instance);
      if !invoke {
        return true, true, false, findings;
      }
      var results;
      ok, results, findings := provider.Validate();
      if !ok {
        return;
      }
      ran := true;
      assert results == [results[0], results[1]];
      GateIsExact(provider.actions, findings, results);
      ok := UpsertStatusConditions(results);
      ghost var t, g := client.store, client.hist;
      ResultsWritten(results, s, h, t, g, ok);
      if !ok {
        InvalidStep(s, h, t, g, startVM, ok);
        return;
      }
      var message;
      valid, message := ShouldFailWith(results);
      if !valid {
        InvalidStep(s, h, t, g, startVM, ok);
        var loaded := provider.GetVM();  // for the name in the event
        return;
      }
      ok := RecordSourceStatus(instance, provider, s, h);
    }

    /** The last step of a positive validation: the source's power is recorded. */
    method RecordSourceStatus(instance: Snapshot, provider: SourceProvider, ghost s: Store, ghost h: History)
      returns (ok: bool)
      requires provider.client == client && client.seen.ready && provider.vm == Some(client.store.power)
      requires Fresh(instance.cr, s) && Inv(s, h, startVM) && OutcomeOf(s.cr) != Failed && !Positive(s.cr)
      requires ConditionsWritten(s, h, client.store, client.hist, true)
      requires OutcomeOf(client.store.cr) == OutcomeOf(s.cr) && Positive(client.store.cr)
      modifies provider, client
      ensures Accounted(old(client.troubled), client.troubled, ok || client.store.power == OtherPower)
      ensures Untroubled(old(client.hist), client.hist, client.troubled || client.store.power == OtherPower)
      ensures provider.vm == old(provider.vm)
      ensures Inv(client.store, client.hist, startVM) && Reconciled(s, h, client.store, client.hist)
      ensures OutcomeOf(client.store.cr) == OutcomeOf(s.cr) && client.store.power == old(client.store).power
      ensures Records(s, client.store) && client.store.dvs == old(client.store).dvs
      ensures ok ==> Positive(client.store.cr) && Ahead(instance.cr, client.store)
                     && client.store.cr.initialState == Some(client.store.power)
    {
      hide Inv, Reconciled, OutcomeOf, ConditionsWritten, Positive, Ahead;
      ghost var t, g := client.store, client.hist;
      PowerWritten(s, h, t, g);
      var status;
      ok, status := provider.GetVMStatus();
      if !ok {
        client.hist := client.hist.(sound := false);
        UnsoundStep(s, h, t, g, client.hist, startVM);
        return;
      }
      ok := StoreSourceVMStatus(instance, status);
      ValidatedStep(s, h, t, g, client.store, client.hist, status, startVM, ok);
    }

    // -------------------------------------------------------------------------------------------
    // The reconcile

    /** Gives the source back for a deleted import. Only a locked disk keeps the finalizer. */
    method Finalize(instance: Snapshot, provider: SourceProvider) returns (requeue: bool, ghost error: Error)
      requires provider.client == client && client.seen.ready
      requires Fresh(instance.cr, client.store) && Inv(client.store, client.hist, startVM)
      requires instance.cr.deleted && RestoreVMState in instance.cr.finalizers
      modifies provider, instance, client
      ensures Accounted(old(client.troubled), client.troubled, error == Fine)
      ensures Untroubled(old(client.hist), client.hist, client.troubled)
      ensures OutcomeOf(client.store.cr) == OutcomeOf(old(client.store).cr)
      ensures Inv(client.store, client.hist, startVM)
      ensures Reconciled(old(client.store), old(client.hist), client.store, client.hist)
      ensures client.hist.sound ==>
                client.hist.asked == old(client.hist).asked + if MeantToBeUp(old(client.store).cr) then 1 else 0
      ensures SameRecord(old(client.store), client.store)
      ensures LeftAlone(old(client.store), old(client.hist), client.store, client.hist)
      ensures requeue <==> error == Locked
      ensures requeue ==> client.store.cr.deleted && RestoreVMState in client.store.cr.finalizers
      ensures !requeue && client.hist.sound ==> RestoreVMState !in client.store.cr.finalizers
    {
      hide Inv, Reconciled;
      ghost var s, h := client.store, client.hist;
      var e := RestoreInitialVMState(provider);
      ghost var t, g := client.store, client.hist;
      GivenBackDeleted(s, h, t, g, startVM);
      error := e;
      if e == Locked {
        requeue := true;
        return;
      }
      requeue := false;
      ghost var inst := instance.cr;
      var removed := RemoveFinalizer(instance, RestoreVMState, client);
      LetGo(inst, s, h, t, g, instance.cr, client.store, client.hist, startVM, removed);
    }

    /** The stages that follow the creation of the target VM: first the disks, then, where it is needed, the
        guest. */
    method ImportInto(provider: SourceProvider, instance: Snapshot, vmName: string) returns (ok: bool, go: bool)
      requires provider.client == client && client.seen.ready && client.seen.prepared
      requires Importing(instance.cr, client.store, client.hist, true) && Going(client.store, client.hist)
      requires vmName == client.store.cr.targetVMName
      requires OutcomeOf(client.store.cr) == Failed <==> vmName == ""
      requires client.seen.phases == map[]
      modifies provider, instance, client
      modifies client.seen`mapped, client.seen`phases, client.seen`fit, client.seen`job, client.seen`bad
      ensures Accounted(old(client.troubled), client.troubled, ok)
      ensures Untroubled(old(client.hist), client.hist, client.troubled)
      ensures old(client.seen.bad) ==> client.seen.bad
      ensures Blamed(old(client.store).cr, client.store.cr, client.troubled, client.seen.bad)
      ensures ok ==> (go <==> Evidence(client.seen, vmware))
      ensures ok && OutcomeOf(client.store.cr) != Failed ==> Looked(client.seen, old(client.store).dvs)
      ensures OnlyFinalizers(old(instance.cr), instance.cr)
      ensures Importing(instance.cr, client.store, client.hist, true)
      ensures Carried(old(client.store), old(client.hist), client.store, client.hist)
      ensures ok && go ==>
                && OutcomeOf(client.store.cr) == Undecided
                && client.store.cr.progress.Some? && client.store.cr.targetVMName != ""
    {
      hide Importing, Carried, OutcomeOf, Going;
      ghost var s, h := client.store, client.hist;
      go := false;
      var done;
      ghost var reported;
      ok, done, reported := ImportDisks(provider, instance, vmName);
      ghost var t, g := client.store, client.hist;
      StillThere(s, h, t, g);
      if !ok || !done {
        return;
      }
      if vmware {
        ok, done := ConvertGuest(provider, instance, vmName);
        Trans(s, h, t, g, client.store, client.hist);
        StillThere(t, g, client.store, client.hist);
        if !ok || !done {
          return;
        }
      }
      go := true;
    }

    /** The stages of an undecided import after its source has been stopped. `go`: it may be declared
        ready. */
    method ImportStages(provider: SourceProvider, instance: Snapshot) returns (ok: bool, go: bool)
      requires provider.client == client && client.seen.ready && client.seen.prepared
      requires Importing(instance.cr, client.store, client.hist, true)
      requires OutcomeOf(client.store.cr) == Undecided
      requires instance.cr.targetVMName == client.store.cr.targetVMName
      requires client.seen.phases == map[]
      modifies provider, instance, client
      modifies client.seen`spec, client.seen`mapped, client.seen`phases, client.seen`fit, client.seen`job,
               client.seen`bad
      ensures Accounted(old(client.troubled), client.troubled, ok)
      ensures Untroubled(old(client.hist), client.hist, client.troubled)
      ensures old(client.seen.bad) ==> client.seen.bad
      ensures Blamed(old(client.store).cr, client.store.cr, client.troubled, client.seen.bad)
      ensures ok ==> (go <==> Evidence(client.seen, vmware))
      ensures ok && OutcomeOf(client.store.cr) != Failed ==> Looked(client.seen, old(client.store).dvs)
      ensures OnlyFinalizers(old(instance.cr), instance.cr)
      ensures Importing(instance.cr, client.store, client.hist, true)
      ensures Carried(old(client.store), old(client.hist), client.store, client.hist)
      ensures ok && go ==>
                && OutcomeOf(client.store.cr) == Undecided
                && client.store.cr.progress.Some? && client.store.cr.targetVMName != ""
    {
      hide Importing, Carried, OutcomeOf, Evidence;
      ghost var s, h := client.store, client.hist;
      Refl(s, h);
      go := false;
      var vmName := instance.cr.targetVMName;
      if vmName == "" {
        ok, vmName := CreateVM(provider, instance);
        if !ok {
          return;
        }
      }
      ghost var t, g := client.store, client.hist;
      StillThere(s, h, t, g);
      ok, go := ImportInto(provider, instance, vmName);
      Trans(s, h, t, g, client.store, client.hist);
      StillThere(t, g, client.store, client.hist);
    }

    /** The end of an import that has just become ready. */
    method FinishImport(provider: SourceProvider, instance: Snapshot) returns (ok: bool)
      requires provider.client == client && client.seen.ready
      requires Won(instance.cr, client.store, client.hist, startVM, 0) && client.hist.succeeded == 0
      modifies provider, instance, client
      ensures Accounted(old(client.troubled), client.troubled, ok)
      ensures Untroubled(old(client.hist), client.hist, client.troubled)
      ensures OnlyFinalizers(old(instance.cr), instance.cr)
      ensures AtEnd(instance.cr, client.store, client.hist, startVM) && Succeeding(OutcomeOf(client.store.cr))
      ensures Carried(old(client.store), old(client.hist), client.store, client.hist)
      ensures ok ==> client.hist.succeeded == 1
      ensures OutcomeOf(client.store.cr) == OutcomeOf(old(client.store).cr)
    {
      hide Importing, Won, Carried, OnlyFinalizers, OutcomeOf, Released, ProgressWritten, AtEnd;
      ghost var s, h := client.store, client.hist;
      OnlyFinalizersRefl(instance.cr);
      ok := UpdateProgress(instance, PROGRESS_DONE);
      ghost var t, g := client.store, client.hist;
      WonProgress(instance.cr, s, h, t, g, PROGRESS_DONE, startVM, 0, ok);
      if !ok {
        EndWon(instance.cr, t, g, startVM, 0);
        return;
      }
      ok := AfterSuccess(provider, instance, 0);
      EndWon(instance.cr, client.store, client.hist, startVM, 1);
      Trans(s, h, t, g, client.store, client.hist);
    }

    /** From a stopped source to the end of the reconcile. The snapshot decides the course: an undecided
        import goes through the importing stages, one that was ready before has only its VM to start. */
    method Advance(provider: SourceProvider, instance: Snapshot) returns (ok: bool)
      requires provider.client == client && client.seen.ready && client.seen.prepared
      requires Unique(instance.cr.conditions)
      requires OutcomeOf(instance.cr) == Undecided || (OutcomeOf(instance.cr) == Ready && startVM)
      requires OutcomeOf(instance.cr) == OutcomeOf(client.store.cr)
      requires instance.cr.targetVMName == client.store.cr.targetVMName
      requires OutcomeOf(instance.cr) == Undecided ==> Importing(instance.cr, client.store, client.hist, true)
      requires OutcomeOf(instance.cr) == Ready ==>
                 Won(instance.cr, client.store, client.hist, startVM, 1) && Released(client.store, client.hist)
      requires OutcomeOf(instance.cr) == Ready && client.hist.succeeded > 0 ==>
                instance.cr.progress == Some(PROGRESS_DONE)
      requires client.seen.phases == map[]
      modifies provider, instance, client
      modifies client.seen`spec, client.seen`mapped, client.seen`phases, client.seen`fit, client.seen`job,
               client.seen`vmi, client.seen`bad
      ensures Accounted(old(client.troubled), client.troubled, ok)
      ensures Untroubled(old(client.hist), client.hist, client.troubled)
      ensures OutcomeOf(old(client.store).cr) == Undecided ==>
                Blamed(old(client.store).cr, client.store.cr, client.troubled, client.seen.bad)
      ensures OutcomeOf(old(client.store).cr) == Undecided && ok ==>
                && (OutcomeOf(client.store.cr) == Ready <==> Evidence(client.seen, vmware))
                && (OutcomeOf(client.store.cr) != Failed ==> Looked(client.seen, old(client.store).dvs))
      ensures OutcomeOf(old(client.store).cr) == Ready && ok ==> StartFollows(client.seen, client.store.cr)
      ensures OnlyFinalizers(old(instance.cr), instance.cr)
      ensures AtEnd(instance.cr, client.store, client.hist, startVM)
      ensures Carried(old(client.store), old(client.hist), client.store, client.hist)
      ensures OutcomeOf(old(client.store).cr) == Ready ==>
                old(client.hist).succeeded <= client.hist.succeeded && Succeeding(OutcomeOf(client.store.cr))
      ensures OutcomeOf(old(client.store).cr) == Undecided && Succeeding(OutcomeOf(client.store.cr)) ==>
                Evidence(client.seen, vmware)
    {
      hide Importing, Carried, OutcomeOf, Won, Released, Positive, ConditionsWritten, ProgressWritten, AtEnd, Evidence;
      ghost var inst, s, h := instance.cr, client.store, client.hist;
      ghost var t, g := s, h;
      Refl(s, h);
      var succeeded := HasSucceeded(instance, [VirtualMachineReady, VirtualMachineRunning]);
      if !succeeded {
        var go;
        ok, go := ImportStages(provider, instance);
        t, g := client.store, client.hist;
        EndImporting(instance.cr, t, g, startVM);
        if !ok || !go {
          return;
        }
        ImportingMeans(instance.cr, t, g, true);
        ok := UpdateConditionsAfterSuccess(instance, VirtualMachineReady);
        ghost var t', g' := client.store, client.hist;
        ReadyStep(instance.cr, t, g, t', g', startVM, ok);
        Trans(s, h, t, g, t', g');
        if !ok {
          EndImporting(instance.cr, t', g', startVM);
          return;
        }
        t, g := t', g';
      }
      SameOutcome(inst, instance.cr);
      var ready := HasSucceeded(instance, [VirtualMachineReady]);
      if startVM && ready {
        ok := StartTargetVM(provider, instance);
        ghost var most :| Won(instance.cr, client.store, client.hist, startVM, most);
        EndWon(instance.cr, client.store, client.hist, startVM, most);
        Trans(s, h, t, g, client.store, client.hist);
      } else {
        ok := FinishImport(provider, instance);
        Trans(s, h, t, g, client.store, client.hist);
      }
    }

    /** A valid import: its source is stopped, and the import gets on. */
    method Proceed(provider: SourceProvider, instance: Snapshot) returns (reply: Reply)
      requires provider.client == client && client.seen.ready && client.seen.prepared
      requires provider.vm.Some? ==> provider.vm.value == client.store.power
      requires Inv(client.store, client.hist, startVM)
      requires Positive(client.store.cr) && Ahead(instance.cr, client.store)
      requires OutcomeOf(client.store.cr) == OutcomeOf(instance.cr)
      requires OutcomeOf(instance.cr) == Undecided || (OutcomeOf(instance.cr) == Ready && startVM)
      requires client.hist.calm ==> !client.store.cr.deleted
      requires client.hist.calm && client.store.cr.progress.None? ==> CancelledImport in client.store.cr.finalizers
      requires client.seen.phases == map[]
      modifies provider, instance, client
      modifies client.seen`spec, client.seen`mapped, client.seen`phases, client.seen`job, client.seen`vmi,
               client.seen`fit, client.seen`bad
      ensures old(client.troubled) ==> client.troubled
      ensures Untroubled(old(client.hist), client.hist, client.troubled)
      ensures reply == ReconcileError ==> client.troubled
      ensures OutcomeOf(old(client.store).cr) == Undecided ==>
                Blamed(old(client.store).cr, client.store.cr, client.troubled, client.seen.bad)
      ensures OutcomeOf(old(client.store).cr) == Undecided && reply == Finished ==>
                (OutcomeOf(client.store.cr) == Ready <==> Evidence(client.seen, vmware))
      ensures reply == Finished ==> Told(old(client.store), client.store, client.seen, vmware)
      ensures Inv(client.store, client.hist, startVM)
      ensures Reconciled(old(client.store), old(client.hist), client.store, client.hist)
      ensures OutcomeOf(old(client.store).cr) == Undecided && Succeeding(OutcomeOf(client.store.cr)) ==>
                Evidence(client.seen, vmware)
      ensures !reply.RequeueAfter? && SameRecord(old(client.store), client.store)
    {
      hide Inv, Reconciled, Importing, Won, Released, Carried, OutcomeOf, Positive, Stopped, Evidence, AtEnd;
      ghost var inst, s, h := instance.cr, client.store, client.hist;
      var ok := provider.StopVM(instance);
      ghost var t, g := client.store, client.hist;
      if OutcomeOf(inst) == Undecided {
        StopStep(inst, s, h, instance.cr, t, g, startVM, ok);
      } else {
        StopReadyStep(inst, s, h, instance.cr, t, g, ok);
      }
      if !ok {
        return ReconcileError;
      }
      StillThere(s, h, t, g);
      ok := client.Ask();  // the mapper and its credentials
      if !ok {
        return ReconcileError;
      }
      SameOutcome(inst, instance.cr);
      ok := Advance(provider, instance);
      EndReconciled(instance.cr, t, g, client.store, client.hist, startVM);
      ReconciledTrans(s, h, t, g, client.store, client.hist);
      return if ok then Finished else ReconcileError;
    }

    /** What a reconcile does for an import that is neither deleted nor decided. */
    method RunImport(provider: SourceProvider, instance: Snapshot) returns (reply: Reply)
      requires provider.client == client && client.seen.ready && provider.vm.None?
      requires Fresh(instance.cr, client.store) && Inv(client.store, client.hist, startVM)
      requires OutcomeOf(instance.cr) == Undecided || (OutcomeOf(instance.cr) == Ready && startVM)
      requires client.hist.calm ==> !instance.cr.deleted
      requires client.hist.calm && instance.cr.progress.None? ==> CancelledImport in instance.cr.finalizers
      requires client.seen.phases == map[]
      modifies provider, instance, client
      modifies client.seen`prepared, client.seen`spec, client.seen`mapped, client.seen`phases, client.seen`job,
               client.seen`vmi, client.seen`fit, client.seen`bad
      ensures old(client.troubled) ==> client.troubled
      ensures Untroubled(old(client.hist), client.hist, client.troubled || old(client.store).power == OtherPower)
      ensures Answered(reply, old(client.store), client.store, client, vmware, startVM)
      ensures Inv(client.store, client.hist, startVM)
      ensures Reconciled(old(client.store), old(client.hist), client.store, client.hist)
    {
      hide Inv, Reconciled, Importing, Won, Released, Carried, OutcomeOf, Positive, Stopped, Evidence, AtEnd, Reported;
      ghost var s, h := client.store, client.hist;
      InvMeans(s, h, startVM);
      var ok; ghost var loaded, mapping, written;
      ok, loaded, mapping, written := FetchVM(instance, provider);
      ReconciledMeans(s, h, client.store, client.hist);
      if !ok {
        return ReconcileError;
      }
      var valid; ghost var ran; ghost var findings;
      ok, valid, ran, findings := ValidateImport(instance, provider);
      ghost var t, g := client.store, client.hist;
      ReconciledMeans(s, h, t, g);
      if !ok {
        return ReconcileError;
      }
      if !valid {
        return RequeueAfter(REQUEUE_AFTER_VALIDATION_FAILURE);
      }
      reply := Proceed(provider, instance);
      ReconciledTrans(s, h, t, g, client.store, client.hist);
    }

    /** An import without progress takes the finalizer that makes it possible to cancel it. */
    method HoldOnTo(instance: Snapshot) returns (ok: bool)
      requires Fresh(instance.cr, client.store) && Inv(client.store, client.hist, startVM)
      modifies instance, client
      ensures Accounted(old(client.troubled), client.troubled, ok)
      ensures Untroubled(old(client.hist), client.hist, client.troubled)
      ensures Fresh(instance.cr, client.store) && Inv(client.store, client.hist, startVM)
      ensures Reconciled(old(client.store), old(client.hist), client.store, client.hist)
      ensures OutcomeOf(client.store.cr) == OutcomeOf(old(client.store).cr)
      ensures SourceKept(old(client.store), client.store)
      ensures OnlyFinalizers(old(instance.cr), instance.cr)
      ensures instance.cr.finalizers == old(instance.cr.finalizers)
              || instance.cr.finalizers == old(instance.cr.finalizers) + [CancelledImport]
      ensures instance.cr.progress.Some? ==> instance.cr == old(instance.cr)
      ensures client.store.dvs == old(client.store).dvs
      ensures ok && instance.cr.progress.None? ==> CancelledImport in instance.cr.finalizers
      ensures !ok ==> !client.hist.sound
      ensures LeftAlone(old(client.store), old(client.hist), client.store, client.hist)
    {
      hide Inv, Reconciled, OutcomeOf, FinalizersWritten;
      ghost var inst, s, h := instance.cr, client.store, client.hist;
      InvMeans(s, h, startVM);
      ok := true;
      if instance.cr.progress.None? {
        ok := AddFinalizer(instance, CancelledImport, client);
        CancelFinalizerStep(inst, s, h, instance.cr, client.store, client.hist, startVM,
                            if CancelledImport in inst.finalizers then None
                            else Some(inst.finalizers + [CancelledImport]), ok);
        SameOutcome(inst, instance.cr);
      }
    }

    /** A deleted import gives up the finalizer that marks it as cancelled. */
    method CancelImport(instance: Snapshot) returns (ok: bool)
      requires Fresh(instance.cr, client.store) && Inv(client.store, client.hist, startVM)
      requires instance.cr.deleted
      modifies instance, client
      ensures Accounted(old(client.troubled), client.troubled, ok)
      ensures Untroubled(old(client.hist), client.hist, client.troubled)
      ensures Fresh(instance.cr, client.store) && Inv(client.store, client.hist, startVM)
      ensures Reconciled(old(client.store), old(client.hist), client.store, client.hist)
      ensures OutcomeOf(client.store.cr) == OutcomeOf(old(client.store).cr)
      ensures instance.cr.deleted == old(instance.cr.deleted)
      ensures SourceKept(old(client.store), client.store)
      ensures ok ==> instance.cr.finalizers == Without(old(instance.cr.finalizers), CancelledImport)
      ensures !ok ==> instance.cr.finalizers == old(instance.cr.finalizers)
      ensures client.store.dvs == old(client.store).dvs
      ensures LeftAlone(old(client.store), old(client.hist), client.store, client.hist)
    {
      hide Inv, Reconciled, OutcomeOf;
      ghost var inst, s, h := instance.cr, client.store, client.hist;
      ok := RemoveFinalizer(instance, CancelledImport, client);
      CancelFinalizerStep(inst, s, h, instance.cr, client.store, client.hist, startVM,
                          if CancelledImport !in inst.finalizers then None
                          else Some(Without(inst.finalizers, CancelledImport)), ok);
      SameOutcome(inst, instance.cr);
      if CancelledImport !in inst.finalizers {
        WithoutAbsent(inst.finalizers, CancelledImport);
      }
    }

    /** A new import fails for want of a provider; one in progress waits for it. */
    method WithoutProvider(instance: Snapshot) returns (reply: Reply)
      requires Inv(client.store, client.hist, startVM)
      requires client.store.cr.progress == instance.cr.progress
      requires client.hist.sound ==> !Positive(client.store.cr)
      requires client.troubled
      modifies client
      ensures client.troubled && !reply.RequeueAfter?
      ensures Untroubled(old(client.hist), client.hist, client.troubled)
      ensures Inv(client.store, client.hist, startVM)
      ensures Reconciled(old(client.store), old(client.hist), client.store, client.hist)
      ensures OnlyConditions(old(client.store), client.store)
      ensures reply == Finished ==> instance.cr.progress.None?
      ensures reply == Finished ==> OutcomeOf(client.store.cr) == Failed
      ensures reply == ReconcileError ==> client.store == old(client.store)
      ensures Settled(old(client.store).cr, startVM) ==>
                LeftAlone(old(client.store), old(client.hist), client.store, client.hist)
    {
      hide Inv, Reconciled, OutcomeOf, Positive, LeftAlone;
      ghost var s, h := client.store, client.hist;
      InvMeans(s, h, startVM);
      NothingChanged(s, h);
      if instance.cr.progress.Some? {
        return ReconcileError;
      }
      var ok := FailNewImportProcess();
      if Settled(s.cr, startVM) {
        SettledFails(s, h, startVM);
        if !ok {
          SameConditions(s.cr, client.store.cr);
        }
        OnlyConditionsChanged(s, h, client.store, client.hist);
      }
      return if ok then Finished else ReconcileError;
    }

    /** An import that has its provider: a deleted one gives back its source, one that is settled is left
        alone, and any other is run. */
    method SeeTo(instance: Snapshot, provider: SourceProvider) returns (reply: Reply)
      requires provider.client == client && client.seen.ready && provider.vm.None?
      requires instance.cr.progress.None? ==> client.seen.connected
      requires Fresh(instance.cr, client.store) && Inv(client.store, client.hist, startVM)
      requires instance.cr.deleted ==> CancelledImport !in instance.cr.finalizers && instance.cr.finalizers != []
      requires !instance.cr.deleted && instance.cr.progress.None? ==> CancelledImport in instance.cr.finalizers
      requires client.seen.phases == map[] && client.seen.mapped == {}
      modifies provider, instance, client
      modifies client.seen`prepared, client.seen`spec, client.seen`mapped, client.seen`phases, client.seen`job,
               client.seen`vmi, client.seen`fit, client.seen`bad
      ensures old(client.troubled) ==> client.troubled
      ensures Untroubled(old(client.hist), client.hist, client.troubled || old(client.store).power == OtherPower)
      ensures Answered(reply, old(client.store), client.store, client, vmware, startVM)
      ensures Inv(client.store, client.hist, startVM)
      ensures Reconciled(old(client.store), old(client.hist), client.store, client.hist)
      ensures OutcomeOf(old(instance.cr)) == Failed && !old(instance.cr.deleted) ==>
                OnlyConditions(old(client.store), client.store)
      ensures Settled(old(client.store).cr, startVM) ==>
                LeftAlone(old(client.store), old(client.hist), client.store, client.hist)
    {
      hide Inv, Reconciled, OutcomeOf, Positive, Evidence, LeftAlone, Told;
      ghost var s, h := client.store, client.hist;
      InvMeans(s, h, startVM);
      NothingChanged(s, h);
      NothingSeen(client.seen, vmware);
      if instance.cr.deleted && RestoreVMState in instance.cr.finalizers {
        var requeue; ghost var error;
        requeue, error := Finalize(instance, provider);
        return if requeue then RequeueAfter(REQUEUE_WHILE_LOCKED) else Finished;
      }
      NotDeleted(instance.cr, s, h, startVM);
      var should := ShouldReconcile(instance);
      if !should {
        return Finished;
      }
      reply := RunImport(provider, instance);
    }

    /** The reconcile once the finalizers of a cancelled import have been seen to. */
    method Continue(instance: Snapshot) returns (reply: Reply)
      requires Fresh(instance.cr, client.store) && Inv(client.store, client.hist, startVM)
      requires instance.cr.deleted ==> CancelledImport !in instance.cr.finalizers && instance.cr.finalizers != []
      requires !instance.cr.deleted && instance.cr.progress.None? ==> CancelledImport in instance.cr.finalizers
      requires client.seen.phases == map[] && client.seen.mapped == {}
      modifies instance, client
      modifies client.seen`ready, client.seen`connected, client.seen`prepared, client.seen`spec,
               client.seen`mapped, client.seen`phases, client.seen`job, client.seen`vmi, client.seen`fit,
               client.seen`bad
      ensures old(client.troubled) ==> client.troubled
      ensures Untroubled(old(client.hist), client.hist, client.troubled || old(client.store).power == OtherPower)
      ensures Answered(reply, old(client.store), client.store, client, vmware, startVM)
      ensures Inv(client.store, client.hist, startVM)
      ensures Reconciled(old(client.store), old(client.hist), client.store, client.hist)
      ensures OutcomeOf(old(instance.cr)) == Failed && !old(instance.cr.deleted) ==>
                OnlyConditions(old(client.store), client.store)
      ensures Settled(old(client.store).cr, startVM) ==>
                LeftAlone(old(client.store), old(client.hist), client.store, client.hist)
    {
      hide Inv, Reconciled, OutcomeOf, Positive, Answered, LeftAlone;
      ghost var s, h := client.store, client.hist;
      InvMeans(s, h, startVM);
      NothingChanged(s, h);
      var created := client.Ask();  // exactly one source type is given
      if !created {
        AnsweredUnseen(ReconcileError, s, s, client, vmware, startVM);
        return ReconcileError;
      }
      var provider := new SourceProvider(client, vmware, actions);
      var ok; ghost var secret, initialised, reachable, written;
      ok, secret, initialised, reachable, written := InitProvider(instance, provider);
      if ok {
        reply := SeeTo(instance, provider);
      } else {
        ghost var t, g := client.store, client.hist;
        OnlyConditionsChanged(s, h, t, g);
        reply := WithoutProvider(instance);
        AnsweredUnseen(reply, s, client.store, client, vmware, startVM);
        ReconciledTrans(s, h, t, g, client.store, client.hist);
        if Settled(s.cr, startVM) {
          LeftAloneTrans(s, h, t, g, client.store, client.hist);
        }
      }
    }

    /** One reconcile, whatever the world answers. It keeps the invariant, and an import it declares
        ready has all its disks complete and, where that is needed, its guest converted. An import that
        has failed without progress gets its cancel finalizer again whenever it is read. */
    method Reconcile() returns (reply: Reply)
      requires Inv(client.store, client.hist, startVM)
      modifies client, client.seen
      ensures Untroubled(old(client.hist), client.hist, client.troubled || old(client.store).power == OtherPower)
      ensures !client.seen.read ==> client.seen.missing || client.troubled
      ensures Answered(reply, old(client.store), client.store, client, vmware, startVM)
      ensures Records(old(client.store), client.store)
      ensures Inv(client.store, client.hist, startVM)
      ensures Reconciled(old(client.store), old(client.hist), client.store, client.hist)
      ensures client.seen.read && client.hist.sound && FailedEarly(old(client.store).cr) ==>
                CancelledImport in client.store.cr.finalizers
      ensures Settled(old(client.store).cr, startVM) ==>
                LeftAlone(old(client.store), old(client.hist), client.store, client.hist)
    {
      hide Inv, Reconciled, OutcomeOf, Positive, Answered, LeftAlone, Without;
      ghost var s, h := client.store, client.hist;
      InvMeans(s, h, startVM);
      NothingChanged(s, h);
      client.Begin();
      var found, cr := client.FindImport();
      if !found.Found? {
        reply := if found.NotFound? then Finished else ReconcileError;
        AnsweredUnseen(reply, s, s, client, vmware, startVM);
        return;
      }
      var instance := new Snapshot(cr);
      var ok := HoldOnTo(instance);
      if !ok {
        reply := ReconcileError;
        AnsweredUnseen(reply, s, client.store, client, vmware, startVM);
        return;
      }
      ghost var t, g := client.store, client.hist;
      if instance.cr.deleted {
        ok := CancelImport(instance);
        ReconciledTrans(s, h, t, g, client.store, client.hist);
        LeftAloneTrans(s, h, t, g, client.store, client.hist);
        t, g := client.store, client.hist;
        if !ok {
          reply := ReconcileError;
          AnsweredUnseen(reply, s, t, client, vmware, startVM);
          return;
        }
        if instance.cr.finalizers == [] {
          reply := Finished;
          AnsweredUnseen(reply, s, t, client, vmware, startVM);
          return;
        }
      }
      reply := Continue(instance);
      AnsweredSince(reply, s, t, client.store, client, vmware, startVM);
      ReconciledTrans(s, h, t, g, client.store, client.hist);
      if Settled(s.cr, startVM) {
        LeftAloneTrans(s, h, t, g, client.store, client.hist);
      }
    }
  }
}
