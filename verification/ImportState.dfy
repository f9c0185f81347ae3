/** The states an import passes through at the end of every reconcile, and how they may follow one
    another. The controller's methods are proved against these predicates. */
module ImportState {
  import opened Wrappers
  import opened Conditions
  import opened ImportStore
  import opened Progress

  // ---------------------------------------------------------------------------------------------
  // What the conditions say

  function StateOf(cs: seq<Condition>, kind: Kind): Option<(Status, Reason)> {
    match Find(cs, kind)
    case Some(c) => Some((c.status, c.reason))
    case None => None
  }

  datatype Outcome = Undecided | Failed | Ready | Running | Incoherent

  /** The Succeeded condition: Ready and Running are the only reasons for True, and go with no other
      status. */
  function Verdict(state: Option<(Status, Reason)>): Outcome {
    match state
    case None => Undecided
    case Some((True, VirtualMachineReady)) => Ready
    case Some((True, VirtualMachineRunning)) => Running
    case Some((False, reason)) =>
      if reason == VirtualMachineReady || reason == VirtualMachineRunning then Incoherent else Failed
    case Some(_) => Incoherent
  }

  function OutcomeOf(cr: Import): Outcome {
    Verdict(StateOf(cr.conditions, Succeeded))
  }

  predicate Succeeding(o: Outcome) {
    o == Ready || o == Running
  }

  predicate Holds(state: Option<(Status, Reason)>) {
    state.Some? && state.value.0 == True
  }

  /** The import has been validated positively, and so is not validated again. */
  predicate Positive(cr: Import) {
    Holds(StateOf(cr.conditions, Valid)) && Holds(StateOf(cr.conditions, MappingRulesVerified))
  }

  // ---------------------------------------------------------------------------------------------
  // The source VM's power

  predicate OwnFinalizersOnly(cr: Import) {
    forall f | f in cr.finalizers :: !f.Foreign?
  }

  /** The import has not touched the source. */
  predicate Untouched(s: Store, h: History) {
    h.asked == 0 && s.power == h.original && RestoreVMState !in s.cr.finalizers
  }

  /** The import keeps the source down, and remembers by the finalizer that it was up. */
  predicate Held(s: Store, h: History) {
    h.asked == 0 && s.power == Down && (RestoreVMState in s.cr.finalizers <==> h.original == Up)
  }

  /** The source was asked to start if, and only if, it had been up. */
  predicate Restored(h: History) {
    h.asked > 0 <==> h.original == Up
  }

  predicate Recorded(s: Store, h: History) {
    s.cr.initialState == Some(h.original) && h.original != OtherPower
  }

  ghost predicate PowerKept(s: Store, h: History) {
    h.calm ==>
      && OwnFinalizersOnly(s.cr)
      && (!Positive(s.cr) ==> Untouched(s, h) && !Succeeding(OutcomeOf(s.cr)))
      && (Positive(s.cr) ==>
            && Recorded(s, h)
            && match OutcomeOf(s.cr)
               case Undecided => Untouched(s, h) || Held(s, h) || (s.cr.deleted && h.asked > 0 && h.original == Up)
               case Failed => Restored(h)
               case _ => h.asked == 0 && s.power == Down && RestoreVMState !in s.cr.finalizers)
  }

  predicate MeantToBeUp(cr: Import) {
    cr.initialState == Some(Up)
  }

  /** What is kept whoever else touches the source or the finalizers: the state is recorded with the
      first positive validation; the source is asked to start only if it is recorded as up, and a
      failed end has done so if it is; an undecided import without the restore finalizer has done so
      if, besides, the finalizer had been written. */
  predicate SoundKept(s: Store, h: History) {
    h.sound ==>
      && (Positive(s.cr) <==> s.cr.initialState.Some?)
      && (h.asked > 0 ==> MeantToBeUp(s.cr))
      && (h.marked ==> Positive(s.cr))
      && (RestoreVMState in s.cr.finalizers ==> h.marked)
      && (OutcomeOf(s.cr) == Failed ==> (h.asked > 0 <==> MeantToBeUp(s.cr)))
      && (OutcomeOf(s.cr) == Undecided && RestoreVMState !in s.cr.finalizers ==>
            (h.asked > 0 <==> h.marked && MeantToBeUp(s.cr)))
  }

  // ---------------------------------------------------------------------------------------------
  // The finalizer of a cancelled import

  /** The end of a success or of a failure has been run. */
  predicate Ended(h: History) {
    h.failed > 0 || h.succeeded > 0
  }

  /** An import under way can be cancelled: it holds on to its finalizer until its end, unless it is
      deleted before. */
  predicate Marked(s: Store, h: History) {
    if Ended(h) then CancelledImport !in s.cr.finalizers else s.cr.deleted || CancelledImport in s.cr.finalizers
  }

  // ---------------------------------------------------------------------------------------------
  // The invariant

  predicate Coherent(s: Store) {
    && Unique(s.cr.conditions)
    && OutcomeOf(s.cr) != Incoherent
    && "" !in s.vms && "" !in s.dvs
    && (s.cr.targetVMName == "" ==> s.dvs == {})
    && (s.cr.progress.Some? ==> 0 <= s.cr.progress.value <= 100)
  }

  predicate ListedGone(s: Store) {
    forall d | d in s.cr.dataVolumes :: d !in s.dvs
  }

  /** Every data volume is on the list of the import. */
  predicate AllListed(s: Store) {
    forall d | d in s.dvs :: d in s.cr.dataVolumes
  }

  /** A clean-up that is done has removed the listed data volumes, unless it could not read the list;
      and none is created afterwards. */
  predicate CleanedUpWell(s: Store, h: History) {
    && (h.cleanup.done && !h.cleanup.listUnread ==> h.cleanup.listRead)
    && (h.cleanup.listRead ==> h.failed > 0 && ListedGone(s))
    && !h.cleanup.createdAfter
    && (!h.cleanup.unlisted ==> AllListed(s))
    && h.cleanup.own <= s.vms
  }

  /** In a sound run every end is run: that of a success once it is decided and, unless its VM is to be
      started first, at once; that of a failure if the import had made progress. */
  predicate EndIsRun(s: Store, h: History, startVM: bool) {
    && SuccessIsRun(s, h, startVM)
    && (h.sound && OutcomeOf(s.cr) == Failed && s.cr.progress.Some? ==> h.failed > 0)
  }

  predicate SuccessIsRun(s: Store, h: History, startVM: bool) {
    h.sound && (OutcomeOf(s.cr) == Running || (OutcomeOf(s.cr) == Ready && !startVM)) ==> h.succeeded > 0
  }

  ghost predicate Inv(s: Store, h: History, startVM: bool) {
    && Coherent(s)
    && (Succeeding(OutcomeOf(s.cr)) ==> s.cr.progress.Some? && s.cr.targetVMName != "")
    && (h.succeeded > 0 ==> Succeeding(OutcomeOf(s.cr)))
    && h.succeeded <= (if OutcomeOf(s.cr) == Running then 2 else 1)
    && (h.succeeded > 0 ==> s.cr.progress == Some(PROGRESS_DONE))
    && (OutcomeOf(s.cr) == Running ==> startVM)
    && (h.failed > 0 ==> OutcomeOf(s.cr) == Failed)
    && (h.cleanup.done ==> h.failed > 0)
    && CleanedUpWell(s, h)
    && EndIsRun(s, h, startVM)
    && PowerKept(s, h)
    && SoundKept(s, h)
    && (h.calm && s.cr.progress.Some? ==> Marked(s, h))
    && (h.calm && Ended(h) ==> RestoreVMState !in s.cr.finalizers)
  }

  /** A new import: no conditions, no progress, nothing created, and a source nobody has touched. */
  ghost predicate Initial(s: Store, h: History) {
    && s.cr == Import([], None, None, [], s.cr.deleted, "", [])
    && "" !in s.vms && s.dvs == {}
    && h == History(s.power, true, true, false, 0, 0, 0, CleanUps(false, false, false, false, false, {}, false))
  }

  lemma InitialInv(s: Store, h: History, startVM: bool)
    requires Initial(s, h)
    ensures Inv(s, h, startVM)
  {}

  // ---------------------------------------------------------------------------------------------
  // Steps

  predicate Moves(before: Outcome, after: Outcome) {
    before == after || before == Undecided || (before == Ready && after == Running)
  }

  predicate NotLess(before: Option<int>, after: Option<int>) {
    before.Some? ==> after.Some? && before.value <= after.value
  }

  /** What becomes of VMs. A reconcile takes away none but the recorded target, and that only to clean up
      after a failure; those it brings in are its own, and it remembers if the one it took away was not. */
  predicate OwnKept(s: Store, h: History, t: Store, g: History) {
    var target := t.cr.targetVMName;
    && (forall v | v in t.vms :: v in g.cleanup.own <==> v !in s.vms || v in h.cleanup.own)
    && (forall v | v in s.vms && v !in t.vms ::
          v == target != "" && OutcomeOf(t.cr) == Failed && (v in h.cleanup.own || g.cleanup.stranger))
    && (h.cleanup.stranger ==> g.cleanup.stranger)
    && (g.cleanup.stranger && !h.cleanup.stranger ==>
          && OutcomeOf(t.cr) == Failed
          && target != "" && target in s.vms && target !in h.cleanup.own && target !in t.vms)
    && (OutcomeOf(s.cr) == Failed ==> t.vms <= s.vms)
  }

  lemma OwnSame(s: Store, h: History, t: Store, g: History)
    requires t.vms == s.vms && g.cleanup.own == h.cleanup.own && g.cleanup.stranger == h.cleanup.stranger
    ensures OwnKept(s, h, t, g)
  {}

  lemma OwnTrans(s: Store, h: History, t: Store, g: History, u: Store, k: History)
    requires OwnKept(s, h, t, g) && OwnKept(t, g, u, k)
    requires t.cr.targetVMName != "" ==> u.cr.targetVMName == t.cr.targetVMName
    requires OutcomeOf(s.cr) == Failed ==> OutcomeOf(t.cr) == Failed
    requires OutcomeOf(t.cr) == Failed ==> OutcomeOf(u.cr) == Failed
    ensures OwnKept(s, h, u, k)
  {
    hide OutcomeOf;
  }

  /** What a reconcile may do to a state that satisfies the invariant. */
  ghost predicate Reconciled(s: Store, h: History, t: Store, g: History) {
    && Moves(OutcomeOf(s.cr), OutcomeOf(t.cr))
    && NotLess(s.cr.progress, t.cr.progress)
    && (s.cr.targetVMName != "" ==> t.cr.targetVMName == s.cr.targetVMName)
    && (h.cleanup.done ==> g.cleanup.done && t.dvs <= s.dvs)
    && (h.cleanup.listUnread ==> g.cleanup.listUnread) && (h.cleanup.unlisted ==> g.cleanup.unlisted)
    && (h.cleanup.done ==> t.vms <= s.vms && t.cr.targetVMName == s.cr.targetVMName)
    && (!h.cleanup.done && g.cleanup.done ==> t.cr.targetVMName !in t.vms)
    && OwnKept(s, h, t, g)
    && (g.sound ==> h.sound) && (g.quiet ==> h.quiet) && (h.marked ==> g.marked)
    && g.original == h.original
    && (g.sound && Positive(s.cr) ==> Positive(t.cr) && t.cr.initialState == s.cr.initialState)
    && h.succeeded <= g.succeeded && h.failed <= g.failed && h.asked <= g.asked
    && (Succeeding(OutcomeOf(s.cr)) && g.calm ==> g.asked == h.asked)
    && t.cr.deleted == s.cr.deleted
  }

  /** The state that is recorded is the source's power before the reconcile, and only an import that was
      not valid before is recorded. */
  predicate Records(s: Store, t: Store) {
    t.cr.initialState == s.cr.initialState || (!Positive(s.cr) && t.cr.initialState == Some(s.power))
  }

  /** No reconcile works on an import that has failed, or whose VM is running or not to be started. */
  predicate Settled(cr: Import, startVM: bool) {
    OutcomeOf(cr) == Failed || OutcomeOf(cr) == Running || (OutcomeOf(cr) == Ready && !startVM)
  }

  /** Nothing is created, removed or ended. Until the import is deleted, only the finalizer for cancelling
      may change, and the source is left alone. */
  ghost predicate LeftAlone(s: Store, h: History, t: Store, g: History) {
    && t.vms == s.vms && t.dvs == s.dvs
    && t.cr == s.cr.(conditions := t.cr.conditions, finalizers := t.cr.finalizers)
    && OutcomeOf(t.cr) == OutcomeOf(s.cr)
    && g == h.(sound := g.sound, asked := g.asked)
    && (!s.cr.deleted ==>
          && t.power == s.power && g.asked == h.asked
          && (forall f: Finalizer | f != CancelledImport :: f in t.cr.finalizers <==> f in s.cr.finalizers))
  }

  lemma LeftAloneTrans(s: Store, h: History, t: Store, g: History, u: Store, k: History)
    requires LeftAlone(s, h, t, g) && LeftAlone(t, g, u, k)
    ensures LeftAlone(s, h, u, k)
  {
    hide OutcomeOf;
  }

  predicate SameRecord(s: Store, t: Store) {
    t.cr.initialState == s.cr.initialState
  }

  predicate SourceKept(s: Store, t: Store) {
    t.power == s.power && t.cr.initialState == s.cr.initialState && Positive(t.cr) == Positive(s.cr)
  }

  /** What the rest of the world may do between two reconciles: delete the import, add or remove
      finalizers of its own, create, replace and delete VMs, delete data volumes, and switch the source. */
  ghost predicate Disturbed(s: Store, h: History, t: Store, g: History) {
    && t.cr == s.cr.(deleted := t.cr.deleted, finalizers := t.cr.finalizers)
    && (s.cr.deleted ==> t.cr.deleted)
    && (forall f: Finalizer | !f.Foreign? :: f in t.cr.finalizers <==> f in s.cr.finalizers)
    && "" !in t.vms && t.dvs <= s.dvs
    && g == h.(quiet := g.quiet, cleanup := h.cleanup.(own := g.cleanup.own))
    && g.cleanup.own <= h.cleanup.own * t.vms
    && (g.quiet ==> h.quiet && t.power == s.power && t.cr.finalizers == s.cr.finalizers)
  }

  lemma DisturbedKeepsInv(s: Store, h: History, t: Store, g: History, startVM: bool)
    requires Inv(s, h, startVM) && Disturbed(s, h, t, g)
    ensures Inv(t, g, startVM)
  {}
}
