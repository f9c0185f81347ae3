/** Whole runs of one import: any number of reconciles, each against whatever the API server and the
    source answer, with the rest of the world acting in between. */
module Runs {
  import opened Wrappers
  import opened Conditions
  import opened ImportStore
  import opened ImportState
  import opened Controller
  import opened Progress

  datatype Point = Point(store: Store, hist: History)

  function Outcomes(p: Point): Outcome {
    OutcomeOf(p.store.cr)
  }

  /** A reconcile does what its contract says; the world does what it may. */
  ghost predicate Follows(p: Point, q: Point, startVM: bool) {
    || Disturbed(p.store, p.hist, q.store, q.hist)
    || (Inv(p.store, p.hist, startVM) ==>
          && Inv(q.store, q.hist, startVM) && Reconciled(p.store, p.hist, q.store, q.hist)
          && Records(p.store, q.store)
          && (Settled(p.store.cr, startVM) ==> LeftAlone(p.store, p.hist, q.store, q.hist)))
  }

  ghost predicate IsRun(run: seq<Point>, startVM: bool) {
    && run != []
    && Initial(run[0].store, run[0].hist)
    && forall i | 0 <= i < |run| - 1 :: Follows(run[i], run[i + 1], startVM)
  }

  lemma {:induction false} InvariantAlongRuns(run: seq<Point>, startVM: bool, i: nat)
    requires IsRun(run, startVM) && i < |run|
    ensures Inv(run[i].store, run[i].hist, startVM)
  {
    if i == 0 {
      InitialInv(run[0].store, run[0].hist, startVM);
    } else {
      InvariantAlongRuns(run, startVM, i - 1);
      assert Follows(run[i - 1], run[i - 1 + 1], startVM);
      if Disturbed(run[i - 1].store, run[i - 1].hist, run[i].store, run[i].hist) {
        DisturbedKeepsInv(run[i - 1].store, run[i - 1].hist, run[i].store, run[i].hist, startVM);
      }
    }
  }

  /** What holds from one point of a run to any later one. */
  ghost predicate Later(p: Point, q: Point) {
    && Moves(Outcomes(p), Outcomes(q))
    && NotLess(p.store.cr.progress, q.store.cr.progress)
    && (p.store.cr.targetVMName != "" ==> q.store.cr.targetVMName == p.store.cr.targetVMName)
    && (p.hist.cleanup.done ==> q.hist.cleanup.done && q.store.dvs <= p.store.dvs)
    && (p.hist.cleanup.listUnread ==> q.hist.cleanup.listUnread)
    && (p.hist.cleanup.unlisted ==> q.hist.cleanup.unlisted)
    && (p.hist.cleanup.stranger ==> q.hist.cleanup.stranger)
    && (q.hist.sound ==> p.hist.sound) && (q.hist.quiet ==> p.hist.quiet)
    && (p.hist.marked ==> q.hist.marked)
    && (q.hist.sound && Positive(p.store.cr) ==>
          Positive(q.store.cr) && q.store.cr.initialState == p.store.cr.initialState)
    && q.hist.original == p.hist.original
    && p.hist.succeeded <= q.hist.succeeded && p.hist.failed <= q.hist.failed && p.hist.asked <= q.hist.asked
    && (Succeeding(Outcomes(p)) && q.hist.calm ==> q.hist.asked == p.hist.asked)
  }

  lemma LaterStep(p: Point, q: Point, startVM: bool)
    requires Inv(p.store, p.hist, startVM) && Follows(p, q, startVM)
    ensures Later(p, q)
  {}

  lemma LaterTrans(p: Point, q: Point, r: Point)
    requires Later(p, q) && Later(q, r)
    ensures Later(p, r)
  {}

  lemma LaterRefl(p: Point)
    ensures Later(p, p)
  {}

  lemma {:induction false} LaterInRuns(run: seq<Point>, startVM: bool, i: nat, j: nat)
    requires IsRun(run, startVM) && i <= j < |run|
    ensures Later(run[i], run[j])
  {
    hide Later, Inv, Follows, Initial;
    if i == j {
      LaterRefl(run[i]);
    } else {
      LaterInRuns(run, startVM, i, j - 1);
      InvariantAlongRuns(run, startVM, j - 1);
      assert Follows(run[j - 1], run[j - 1 + 1], startVM);
      LaterStep(run[j - 1], run[j], startVM);
      LaterTrans(run[i], run[j - 1], run[j]);
    }
  }

  /** An import that has failed stays failed, one that has succeeded stays so, and the reason for the
      success moves at most from ready to running. */
  lemma OutcomeIsStable(run: seq<Point>, startVM: bool, i: nat, j: nat)
    requires IsRun(run, startVM) && i <= j < |run|
    ensures Outcomes(run[i]) == Failed ==> Outcomes(run[j]) == Failed
    ensures Outcomes(run[i]) == Running ==> Outcomes(run[j]) == Running
    ensures Outcomes(run[i]) == Ready ==> Outcomes(run[j]) == Ready || (Outcomes(run[j]) == Running && startVM)
    ensures Outcomes(run[j]) != Incoherent
  {
    LaterInRuns(run, startVM, i, j);
    InvariantAlongRuns(run, startVM, j);
  }

  /** Progress stays in 0..100 and never goes back between reconciles. */
  lemma ProgressNeverDecreases(run: seq<Point>, startVM: bool, i: nat, j: nat)
    requires IsRun(run, startVM) && i <= j < |run|
    ensures NotLess(run[i].store.cr.progress, run[j].store.cr.progress)
    ensures run[j].store.cr.progress.Some? ==> 0 <= run[j].store.cr.progress.value <= 100
    ensures Succeeding(Outcomes(run[j])) ==> run[j].store.cr.progress.Some?
  {
    LaterInRuns(run, startVM, i, j);
    InvariantAlongRuns(run, startVM, j);
  }

  /** Once a failure has been cleaned up without error, the import has failed for good and no data
      volume is ever created again. None of those listed is left, unless the clean-up could not read the
      list, the one error that it drops; and none at all is left, unless one was created that could not
      be listed. */
  lemma NothingComesBackAfterCleanUp(run: seq<Point>, startVM: bool, i: nat, j: nat)
    requires IsRun(run, startVM) && i <= j < |run|
    requires run[i].hist.cleanup.done
    ensures Outcomes(run[j]) == Failed
    ensures !run[j].hist.cleanup.createdAfter && run[j].store.dvs <= run[i].store.dvs
    ensures !run[j].hist.cleanup.listUnread ==> ListedGone(run[j].store)
    ensures !run[j].hist.cleanup.listUnread && !run[j].hist.cleanup.unlisted ==> run[j].store.dvs == {}
  {
    LaterInRuns(run, startVM, i, j);
    InvariantAlongRuns(run, startVM, i);
    InvariantAlongRuns(run, startVM, j);
  }

  /** An import ends one way only; the end of a success is run once, or once more when the VM that was
      to be started is running. */
  lemma EndsOneWayOnly(run: seq<Point>, startVM: bool, i: nat, j: nat)
    requires IsRun(run, startVM) && i <= j < |run|
    ensures run[i].hist.succeeded > 0 ==> run[j].hist.failed == 0
    ensures run[i].hist.failed > 0 ==> run[j].hist.succeeded == 0
    ensures run[j].hist.succeeded <= 2 && (!startVM ==> run[j].hist.succeeded <= 1)
  {
    LaterInRuns(run, startVM, i, j);
    InvariantAlongRuns(run, startVM, i);
    InvariantAlongRuns(run, startVM, j);
  }

  /** Gone with that clean-up is the target VM as well. If it is there later, somebody else has created
      it, in a step after the clean-up. */
  lemma {:induction false} TargetIsGoneAfterCleanUp(run: seq<Point>, startVM: bool, j: nat) returns (k: nat)
    requires IsRun(run, startVM) && j < |run|
    requires run[j].hist.cleanup.done && run[j].store.cr.targetVMName in run[j].store.vms
    ensures k + 1 <= j && run[k].hist.cleanup.done
    ensures var target := run[j].store.cr.targetVMName;
            && run[k].store.cr.targetVMName == target
            && target !in run[k].store.vms && target in run[k + 1].store.vms
            && Disturbed(run[k].store, run[k].hist, run[k + 1].store, run[k + 1].hist)
  {
    hide Inv;
    InvariantAlongRuns(run, startVM, j - 1);
    assert Follows(run[j - 1], run[j - 1 + 1], startVM);
    if run[j - 1].store.cr.targetVMName in run[j - 1].store.vms {
      k := TargetIsGoneAfterCleanUp(run, startVM, j - 1);
    } else {
      k := j - 1;
    }
  }

  /** A success that has been run to its end shows full progress. In a calm run an import that has ended
      holds on to no finalizer of its own, so that nothing keeps it from being deleted - except that one
      without progress may have got back the one for cancelling. An import under way that has made
      progress holds on to that. */
  lemma FinalizersFollowTheEnd(run: seq<Point>, startVM: bool, j: nat)
    requires IsRun(run, startVM) && j < |run|
    ensures var p := run[j];
            && (p.hist.succeeded > 0 ==> p.store.cr.progress == Some(100))
            && (p.hist.calm && Ended(p.hist) ==> forall f | f in p.store.cr.finalizers :: f == CancelledImport)
            && (p.hist.calm && Ended(p.hist) && p.store.cr.progress.Some? ==> p.store.cr.finalizers == [])
            && (p.hist.calm && p.store.cr.progress.Some? && !Ended(p.hist) && !p.store.cr.deleted ==>
                  CancelledImport in p.store.cr.finalizers)
  {
    InvariantAlongRuns(run, startVM, j);
    var fs := run[j].store.cr.finalizers;
    if fs != [] {
      assert fs[0] in fs;
    }
  }

  // ---------------------------------------------------------------------------------------------
  // Ends that are run, and ends that are not

  /** In a sound run every end is run: a decided success has been counted, cleaned up and shown as full
      progress, unless its VM is to be started first, and a failed import that had made progress has
      been cleaned up after. */
  lemma EndsAreRun(run: seq<Point>, startVM: bool, j: nat)
    requires IsRun(run, startVM) && j < |run| && run[j].hist.sound
    ensures Outcomes(run[j]) == Running || (Outcomes(run[j]) == Ready && !startVM) ==>
              run[j].hist.succeeded > 0 && run[j].store.cr.progress == Some(100)
    ensures Outcomes(run[j]) == Failed && run[j].store.cr.progress.Some? ==> run[j].hist.failed > 0
  {
    InvariantAlongRuns(run, startVM, j);
  }

  /** What stays as it is, from the point where no reconcile works on the import any more. */
  predicate StaysBehind(p: Point, q: Point) {
    && Outcomes(q) == Outcomes(p)
    && q.hist.succeeded == p.hist.succeeded && q.hist.failed == p.hist.failed
    && q.hist.cleanup == p.hist.cleanup.(own := q.hist.cleanup.own)
    && q.store.cr == p.store.cr.(conditions := q.store.cr.conditions, finalizers := q.store.cr.finalizers,
                                 deleted := q.store.cr.deleted)
    && q.store.dvs <= p.store.dvs
    && (p.store.cr.deleted ==> q.store.cr.deleted)
    && (!q.store.cr.deleted ==>
          && q.hist.asked == p.hist.asked
          && (RestoreVMState in q.store.cr.finalizers <==> RestoreVMState in p.store.cr.finalizers))
  }

  /** An import that has failed, or has succeeded and has no VM to start, is never worked on again: an end
      that was not run by then, or a clean-up that returned an error, is not made up for. */
  lemma {:induction false} EndsAreNotMadeUpFor(run: seq<Point>, startVM: bool, i: nat, j: nat)
    requires IsRun(run, startVM) && i <= j < |run|
    requires Settled(run[i].store.cr, startVM)
    ensures StaysBehind(run[i], run[j]) && Settled(run[j].store.cr, startVM)
  {
    hide Inv, Reconciled, OutcomeOf, Initial, Records;
    if i < j {
      EndsAreNotMadeUpFor(run, startVM, i, j - 1);
      InvariantAlongRuns(run, startVM, j - 1);
      assert Follows(run[j - 1], run[j - 1 + 1], startVM);
      if Disturbed(run[j - 1].store, run[j - 1].hist, run[j].store, run[j].hist) {
        SameConditions(run[j - 1].store.cr, run[j].store.cr);
      }
    }
  }

  predicate Has(p: Point, volume: bool, name: string) {
    name in if volume then p.store.dvs else p.store.vms
  }

  /** What is there by then is removed by somebody else, or it stays. */
  lemma {:induction false} LeftoversAreForOthers(run: seq<Point>, startVM: bool, i: nat, j: nat, volume: bool,
                                                 name: string)
    returns (k: nat)
    requires IsRun(run, startVM) && i <= j < |run|
    requires Settled(run[i].store.cr, startVM)
    requires Has(run[i], volume, name) && !Has(run[j], volume, name)
    ensures i <= k < j && Has(run[k], volume, name) && !Has(run[k + 1], volume, name)
    ensures Disturbed(run[k].store, run[k].hist, run[k + 1].store, run[k + 1].hist)
  {
    hide Inv, Reconciled, OutcomeOf, Initial, Records;
    if Has(run[j - 1], volume, name) {
      k := j - 1;
      EndsAreNotMadeUpFor(run, startVM, i, k);
      InvariantAlongRuns(run, startVM, k);
      assert Follows(run[k], run[k + 1], startVM);
    } else {
      k := LeftoversAreForOthers(run, startVM, i, j - 1, volume, name);
    }
  }

  // ---------------------------------------------------------------------------------------------
  // Whose VM is deleted

  predicate Own(p: Point, name: string) {
    name in p.hist.cleanup.own
  }

  /** A VM of that name that is not the import's own. */
  predicate Foreigner(p: Point, name: string) {
    name in p.store.vms && !Own(p, name)
  }

  /** The step that records the target, and the VM of that name was there before it. */
  predicate FoundThere(p: Point, q: Point) {
    p.store.cr.targetVMName == "" != q.store.cr.targetVMName && Foreigner(p, q.store.cr.targetVMName)
  }

  /** A step by which somebody else puts another VM in the target's place. */
  ghost predicate Replaced(p: Point, q: Point) {
    && Disturbed(p.store, p.hist, q.store, q.hist)
    && Foreigner(q, p.store.cr.targetVMName) && !Foreigner(p, p.store.cr.targetVMName)
  }

  /** A recorded target that is there is the import's own exactly if it had not been found there: creating
      a VM that exists is no failure. */
  lemma RecordedIsOwnIff(run: seq<Point>, startVM: bool, j: nat)
    requires IsRun(run, startVM) && j + 1 < |run|
    requires run[j].store.cr.targetVMName == "" && run[j + 1].store.cr.targetVMName in run[j + 1].store.vms
    ensures Own(run[j + 1], run[j + 1].store.cr.targetVMName) <==> !FoundThere(run[j], run[j + 1])
  {
    hide OutcomeOf;
    InvariantAlongRuns(run, startVM, j);
    InvariantAlongRuns(run, startVM, j + 1);
    assert Follows(run[j], run[j + 1], startVM);
  }

  /** If it is not, at any later point, it had been found there or was replaced since. */
  lemma {:induction false} WhoseTarget(run: seq<Point>, startVM: bool, j: nat) returns (k: nat)
    requires IsRun(run, startVM) && j < |run|
    requires run[j].store.cr.targetVMName != "" && Foreigner(run[j], run[j].store.cr.targetVMName)
    ensures k < j && (FoundThere(run[k], run[k + 1]) || Replaced(run[k], run[k + 1]))
  {
    hide Inv, OutcomeOf;
    k := j - 1;
    InvariantAlongRuns(run, startVM, k);
    assert Follows(run[k], run[k + 1], startVM);
    if run[k].store.cr.targetVMName != "" && Foreigner(run[k], run[k].store.cr.targetVMName) {
      k := WhoseTarget(run, startVM, k);
    }
  }

  /** A reconcile that deletes a VM which no reconcile had created. */
  ghost predicate StrangerDeleted(p: Point, q: Point) {
    var target := q.store.cr.targetVMName;
    && !Disturbed(p.store, p.hist, q.store, q.hist)
    && Outcomes(q) == Failed
    && target != "" && Foreigner(p, target) && target !in q.store.vms
  }

  /** A VM that a reconcile removes is the recorded target of a failed import, be it its own or not. */
  lemma OnlyTheTargetIsRemoved(run: seq<Point>, startVM: bool, j: nat, name: string)
    requires IsRun(run, startVM) && j + 1 < |run|
    requires name in run[j].store.vms && name !in run[j + 1].store.vms
    requires !Disturbed(run[j].store, run[j].hist, run[j + 1].store, run[j + 1].hist)
    ensures name == run[j + 1].store.cr.targetVMName && Outcomes(run[j + 1]) == Failed
    ensures Own(run[j], name) || StrangerDeleted(run[j], run[j + 1])
  {
    hide Inv, OutcomeOf;
    InvariantAlongRuns(run, startVM, j);
    assert Follows(run[j], run[j + 1], startVM);
  }

  /** The history tells whether that has happened. */
  lemma {:induction false} StrangerIsRemembered(run: seq<Point>, startVM: bool, j: nat)
    requires IsRun(run, startVM) && j < |run|
    ensures run[j].hist.cleanup.stranger <==> exists k | 0 <= k < j :: StrangerDeleted(run[k], run[k + 1])
  {
    hide Inv, OutcomeOf;
    if j > 0 {
      StrangerIsRemembered(run, startVM, j - 1);
      InvariantAlongRuns(run, startVM, j - 1);
      assert Follows(run[j - 1], run[j - 1 + 1], startVM);
      assert run[j].hist.cleanup.stranger <==>
             run[j - 1].hist.cleanup.stranger || StrangerDeleted(run[j - 1], run[j - 1 + 1]);
    }
  }

  /** An import whose VM was not found there, and was not replaced, deletes only what it has created. */
  lemma OnlyOwnIsDeleted(run: seq<Point>, startVM: bool, j: nat)
    requires IsRun(run, startVM) && j < |run|
    requires forall k | 0 <= k < j :: !FoundThere(run[k], run[k + 1]) && !Replaced(run[k], run[k + 1])
    ensures !run[j].hist.cleanup.stranger
  {
    hide Inv, Reconciled, OutcomeOf, FoundThere, Replaced;
    StrangerIsRemembered(run, startVM, j);
    if run[j].hist.cleanup.stranger {
      var k :| 0 <= k < j && StrangerDeleted(run[k], run[k + 1]);
      StrangerWasThere(run, startVM, k);
    }
  }

  lemma StrangerWasThere(run: seq<Point>, startVM: bool, k: nat)
    requires IsRun(run, startVM) && k + 1 < |run| && StrangerDeleted(run[k], run[k + 1])
    ensures exists i | 0 <= i <= k :: FoundThere(run[i], run[i + 1]) || Replaced(run[i], run[i + 1])
  {
    hide Inv, OutcomeOf, OwnKept;
    InvariantAlongRuns(run, startVM, k);
    assert Follows(run[k], run[k + 1], startVM);
    if run[k].store.cr.targetVMName == "" {
      assert FoundThere(run[k], run[k + 1]);
    } else {
      var i := WhoseTarget(run, startVM, k);
    }
  }

  // ---------------------------------------------------------------------------------------------
  // The source, whoever else touches it

  /** The recorded state is the power the source had before the reconcile that recorded it, and that
      reconcile found the import not validated. */
  lemma {:induction false} RecordedBefore(run: seq<Point>, startVM: bool, j: nat) returns (i: nat)
    requires IsRun(run, startVM) && j < |run| && run[j].store.cr.initialState.Some?
    ensures i < j && run[i].store.power == run[j].store.cr.initialState.value
    ensures run[i].store.cr.initialState != run[j].store.cr.initialState && !Positive(run[i].store.cr)
    ensures run[i + 1].store.cr.initialState == run[j].store.cr.initialState
  {
    hide Inv, Reconciled;
    InvariantAlongRuns(run, startVM, j - 1);
    assert Follows(run[j - 1], run[j - 1 + 1], startVM);
    if run[j - 1].store.cr.initialState == run[j].store.cr.initialState {
      i := RecordedBefore(run, startVM, j - 1);
    } else {
      i := j - 1;
    }
  }

  /** In a sound run - whatever else is done to the source or the finalizers, and even if stopping the
      source failed:
      - the state is recorded once, with the validation, and never again;
      - the source is asked to start only if it is recorded as up;
      - a failed import has asked exactly if it is;
      - an import that was deleted before its end, and has nothing left to restore, has asked exactly
        if, besides, the restore finalizer had been written. */
  lemma SourceIsAskedFor(run: seq<Point>, startVM: bool, i: nat, j: nat)
    requires IsRun(run, startVM) && i <= j < |run|
    requires run[j].hist.sound
    ensures Positive(run[j].store.cr) <==> run[j].store.cr.initialState.Some?
    ensures run[i].store.cr.initialState.Some? ==> run[j].store.cr.initialState == run[i].store.cr.initialState
    ensures run[j].hist.asked > 0 ==> MeantToBeUp(run[j].store.cr)
    ensures Outcomes(run[j]) == Failed ==> (run[j].hist.asked > 0 <==> MeantToBeUp(run[j].store.cr))
    ensures Outcomes(run[j]) == Undecided && RestoreVMState !in run[j].store.cr.finalizers ==>
              (run[j].hist.asked > 0 <==> run[j].hist.marked && MeantToBeUp(run[j].store.cr))
  {
    LaterInRuns(run, startVM, i, j);
    InvariantAlongRuns(run, startVM, i);
    InvariantAlongRuns(run, startVM, j);
  }

  // ---------------------------------------------------------------------------------------------
  // Runs in which the source or a finalizer is not given back, an end is not run, or a VM is not spared

  function Told(kind: Kind, reason: Reason, status: Status): Condition {
    NewCondition(kind, reason, "", status, 0)
  }

  /** An import that has got no further than its validation. */
  function Validated(recorded: Power, deleted: bool, finalizers: seq<Finalizer>): Import {
    Import([Told(Valid, ValidationCompleted, True),
            Told(MappingRulesVerified, MappingRulesVerificationCompleted, True)],
           None, Some(recorded), finalizers, deleted, "", [])
  }

  /** One whose mapping has gone missing since. */
  function Invalidated(finalizers: seq<Finalizer>): Import {
    Import([Told(Valid, ResourceMappingNotFound, False),
            Told(MappingRulesVerified, MappingRulesVerificationCompleted, True)],
           None, Some(Up), finalizers, false, "", [])
  }

  /** What a validated import says when it is decided. */
  function Decided(processing: Reason, outcome: Reason, status: Status): seq<Condition> {
    [Told(Valid, ValidationCompleted, True), Told(MappingRulesVerified, MappingRulesVerificationCompleted, True),
     Told(Processing, processing, status), Told(Succeeded, outcome, status)]
  }

  /** One for which no template was found. */
  function WithoutTemplate(recorded: Power, finalizers: seq<Finalizer>): Import {
    Import(Decided(ProcessingFailed, VMTemplateMatchingFailed, False), None, Some(recorded), finalizers, false, "", [])
  }

  lemma FoundAt(cs: seq<Condition>, kind: Kind, i: nat)
    requires i < |cs| && cs[i].kind == kind
    requires forall j | 0 <= j < i :: cs[j].kind != kind
    ensures Find(cs, kind) == Some(cs[i])
  {}

  lemma ValidatedSays(recorded: Power, deleted: bool, finalizers: seq<Finalizer>)
    ensures var cr := Validated(recorded, deleted, finalizers);
            OutcomeOf(cr) == Undecided && Positive(cr) && Unique(cr.conditions)
  {}

  lemma InvalidatedSays(finalizers: seq<Finalizer>)
    ensures var cr := Invalidated(finalizers);
            OutcomeOf(cr) == Undecided && !Positive(cr) && Unique(cr.conditions)
  {}

  lemma WithoutTemplateSays(recorded: Power, finalizers: seq<Finalizer>)
    ensures var cr := WithoutTemplate(recorded, finalizers);
            && OutcomeOf(cr) == Failed && Positive(cr) && Unique(cr.conditions)
            && Doing(cr) == Some((False, ProcessingFailed))
  {
    DecidedSays(WithoutTemplate(recorded, finalizers), ProcessingFailed, VMTemplateMatchingFailed, False);
    hide StateOf;
  }

  lemma DecidedSays(cr: Import, processing: Reason, outcome: Reason, status: Status)
    requires cr.conditions == Decided(processing, outcome, status)
    ensures Positive(cr) && Unique(cr.conditions) && Doing(cr) == Some((status, processing))
    ensures OutcomeOf(cr) == Verdict(Some((status, outcome)))
  {
    FoundAt(cr.conditions, Valid, 0);
    FoundAt(cr.conditions, MappingRulesVerified, 1);
    FoundAt(cr.conditions, Processing, 2);
    FoundAt(cr.conditions, Succeeded, 3);
  }

  function Nothing(): CleanUps {
    CleanUps(false, false, false, false, false, {}, false)
  }

  function Start(): Point {
    Point(Store(Import([], None, None, [], false, "", []), {}, {}, Up),
          History(Up, true, true, false, 0, 0, 0, Nothing()))
  }

  function Stopped(deleted: bool, finalizers: seq<Finalizer>): Point {
    Point(Store(Validated(Up, deleted, finalizers), {}, {}, Down), History(Up, true, false, false, 0, 0, 0, Nothing()))
  }

  /** A stop that failed and still brought the source down is not made good on deletion: the next
      reconcile finds the source down and never writes the finalizer. The run is sound, and nobody else
      has done anything but delete the import. */
  lemma FailedStopIsNotGivenBack(startVM: bool) returns (run: seq<Point>)
    ensures IsRun(run, startVM) && |run| == 5
    ensures var first, last := run[0], run[4];
            && first.store.power == Up && last.store.power == Down
            && last.hist.sound && last.store.cr.deleted && last.store.cr.finalizers == []
            && MeantToBeUp(last.store.cr) && last.hist.asked == 0
  {
    run := [Start(), Stopped(false, [CancelledImport]), Stopped(false, [CancelledImport]),
            Stopped(true, [CancelledImport]), Stopped(true, [])];
    hide Follows, Validated, MeantToBeUp;
    StopFollows(startVM);
    StoppedFollows(false, [CancelledImport], [CancelledImport], startVM);
    StoppedFollows(true, [CancelledImport], [], startVM);
    DeletedFollows(startVM);
    ValidatedIs(true, []);
  }

  lemma ValidatedIs(deleted: bool, finalizers: seq<Finalizer>)
    ensures var cr := Validated(Up, deleted, finalizers);
            cr.deleted == deleted && cr.finalizers == finalizers && MeantToBeUp(cr)
  {}

  lemma StoppedInv(deleted: bool, finalizers: seq<Finalizer>, startVM: bool)
    requires RestoreVMState !in finalizers
    ensures Inv(Stopped(deleted, finalizers).store, Stopped(deleted, finalizers).hist, startVM)
  {
    ValidatedSays(Up, deleted, finalizers);
  }

  lemma StopFollows(startVM: bool)
    ensures Follows(Start(), Stopped(false, [CancelledImport]), startVM)
  {
    ValidatedSays(Up, false, [CancelledImport]);
    StoppedInv(false, [CancelledImport], startVM);
  }

  lemma StoppedFollows(deleted: bool, before: seq<Finalizer>, after: seq<Finalizer>, startVM: bool)
    requires RestoreVMState !in after
    ensures Follows(Stopped(deleted, before), Stopped(deleted, after), startVM)
  {
    ValidatedSays(Up, deleted, before);
    ValidatedSays(Up, deleted, after);
    StoppedInv(deleted, after, startVM);
  }

  lemma DeletedFollows(startVM: bool)
    ensures Follows(Stopped(false, [CancelledImport]), Stopped(true, [CancelledImport]), startVM)
  {
    hide Inv, Reconciled;
  }

  /** A failure before any progress is cleaned up, loses its finalizer, and gets it back. */
  lemma CancelFinalizerComesBack(startVM: bool) returns (run: seq<Point>)
    ensures IsRun(run, startVM) && |run| == 3
    ensures run[2].hist.calm && Ended(run[1].hist) && Ended(run[2].hist)
    ensures run[1].store.cr.progress.None? && run[2].store.cr.progress.None?
    ensures run[1].store.cr.finalizers == [] && run[2].store.cr.finalizers == [CancelledImport]
  {
    run := [Start(), Early([]), Early([CancelledImport])];
    EarlyFollows();
    EarlyInv([], startVM);
    EarlyInv([CancelledImport], startVM);
    hide Inv, Reconciled, LeftAlone, OutcomeOf, Records;
    assert Follows(run[0], run[1], startVM);
    assert Follows(run[1], run[2], startVM);
  }

  function Early(finalizers: seq<Finalizer>): Point {
    Point(Store(WithoutTemplate(Up, finalizers), {}, {}, Up),
          History(Up, true, true, true, 0, 1, 1, Nothing().(done := true, listRead := true)))
  }

  lemma EarlyInv(finalizers: seq<Finalizer>, startVM: bool)
    requires forall f | f in finalizers :: f == CancelledImport
    ensures Inv(Early(finalizers).store, Early(finalizers).hist, startVM)
  {
    WithoutTemplateSays(Up, finalizers);
    hide StateOf;
  }

  lemma EarlyFollows()
    ensures var p, q := Start(), Early([]);
            Reconciled(p.store, p.hist, q.store, q.hist) && Records(p.store, q.store)
    ensures var q, r := Early([]), Early([CancelledImport]);
            Reconciled(q.store, q.hist, r.store, r.hist) && Records(q.store, r.store)
            && LeftAlone(q.store, q.hist, r.store, r.hist)
    ensures OutcomeOf(Start().store.cr) == Undecided
  {
    WithoutTemplateSays(Up, []);
    WithoutTemplateSays(Up, [CancelledImport]);
    FreshSays();
    hide OutcomeOf, Positive, Decided;
  }

  /** A mapping that goes missing for a while costs the record: the import is validated again, the stopped
      source is recorded as down, and the failure that follows does not ask for a start. Nobody else has
      touched the source, and the failure is cleaned up well. */
  lemma RecordIsLost(startVM: bool) returns (run: seq<Point>)
    ensures IsRun(run, startVM) && |run| == 5
    ensures var first, last := run[0], run[4];
            && first.store.power == Up && run[1].store.cr.initialState == Some(Up) && last.store.power == Down
            && Outcomes(last) == Failed && last.hist.cleanup.done && last.hist.quiet
            && last.store.cr.initialState == Some(Down) && last.hist.asked == 0
  {
    run := [Start(), Held(), Missing(), Again(), Lost()];
    WithoutTemplateSays(Down, []);
    hide Follows, OutcomeOf, WithoutTemplate;
    HeldFollows(startVM);
    MissingFollows(startVM);
    AgainFollows(startVM);
    LostFollows(startVM);
    LostIs();
  }

  lemma LostIs()
    ensures Lost().store.cr.initialState == Some(Down)
  {}

  function Kept(): seq<Finalizer> {
    [CancelledImport, RestoreVMState]
  }

  function Held(): Point {
    Point(Store(Validated(Up, false, Kept()), {}, {}, Down), History(Up, true, true, true, 0, 0, 0, Nothing()))
  }

  function Missing(): Point {
    Point(Store(Invalidated(Kept()), {}, {}, Down), Held().hist.(sound := false))
  }

  function Again(): Point {
    Point(Store(Validated(Down, false, Kept()), {}, {}, Down), Missing().hist)
  }

  function Lost(): Point {
    Point(Store(WithoutTemplate(Down, []), {}, {}, Down),
          Missing().hist.(failed := 1, cleanup := Nothing().(done := true, listRead := true)))
  }

  lemma HeldFollows(startVM: bool)
    ensures Follows(Start(), Held(), startVM)
  {
    ValidatedSays(Up, false, Kept());
    FreshSays();
    hide OutcomeOf, Positive;
    assert Inv(Held().store, Held().hist, startVM);
  }

  lemma MissingFollows(startVM: bool)
    ensures Follows(Held(), Missing(), startVM)
  {
    ValidatedSays(Up, false, Kept());
    InvalidatedSays(Kept());
    hide OutcomeOf, Positive;
    assert Inv(Missing().store, Missing().hist, startVM);
  }

  lemma AgainFollows(startVM: bool)
    ensures Follows(Missing(), Again(), startVM)
  {
    InvalidatedSays(Kept());
    ValidatedSays(Down, false, Kept());
    hide OutcomeOf, Positive;
    assert Inv(Again().store, Again().hist, startVM);
  }

  lemma LostFollows(startVM: bool)
    ensures Follows(Again(), Lost(), startVM)
  {
    ValidatedSays(Down, false, Kept());
    WithoutTemplateSays(Down, []);
    LostInv(startVM);
    hide Inv, OutcomeOf, Positive, Decided;
  }

  lemma LostInv(startVM: bool)
    ensures Inv(Lost().store, Lost().hist, startVM)
  {
    WithoutTemplateSays(Down, []);
    hide StateOf;
  }

  /** An import whose one disk is being copied. */
  function Copying(): Point {
    Point(Store(Import([Told(Valid, ValidationCompleted, True),
                        Told(MappingRulesVerified, MappingRulesVerificationCompleted, True),
                        Told(Processing, CopyingDisks, True)],
                       Some(PROGRESS_COPYING_DISKS), Some(Up), Kept(), false, "vm", ["disk"]),
                {"vm"}, {"disk"}, Down),
          History(Up, true, true, true, 0, 0, 0, Nothing().(own := {"vm"})))
  }

  /** The same when it is ready. */
  function Done(progress: int, finalizers: seq<Finalizer>, deleted: bool): Import {
    Import(Decided(ProcessingCompleted, VirtualMachineReady, True), Some(progress), Some(Up), finalizers, deleted,
           "vm", ["disk"])
  }

  lemma CopyingSays()
    ensures var cr := Copying().store.cr;
            OutcomeOf(cr) == Undecided && Positive(cr) && Unique(cr.conditions)
  {
    var cs := Copying().store.cr.conditions;
    FoundAt(cs, Valid, 0);
    FoundAt(cs, MappingRulesVerified, 1);
  }

  lemma DoneSays(progress: int, finalizers: seq<Finalizer>, deleted: bool)
    ensures var cr := Done(progress, finalizers, deleted);
            OutcomeOf(cr) == Ready && Positive(cr) && Unique(cr.conditions)
  {
    DecidedSays(Done(progress, finalizers, deleted), ProcessingCompleted, VirtualMachineReady, True);
    hide StateOf;
  }

  lemma FreshSays()
    ensures OutcomeOf(Start().store.cr) == Undecided && !Positive(Start().store.cr)
  {}

  lemma CopyingFollows(startVM: bool)
    ensures Follows(Start(), Copying(), startVM)
  {
    CopyingSays();
    hide OutcomeOf, Positive;
    assert Inv(Copying().store, Copying().hist, startVM);
    FreshSays();
  }

  /** The write of full progress failed. */
  function Unended(): Point {
    Point(Store(Done(75, Kept(), false), {"vm"}, {"disk"}, Down), Copying().hist.(sound := false))
  }

  /** An import that has become ready, but whose progress could not be written to the end, is not ended
      in any continuation of the run. */
  lemma SuccessIsNotEnded() returns (run: seq<Point>)
    ensures IsRun(run, false) && |run| == 3 && Outcomes(run[2]) == Ready
    ensures forall more: seq<Point> | IsRun(run + more, false) ::
              var last := (run + more)[|run + more| - 1];
              last.hist.succeeded == 0 && last.store.cr.progress == Some(75)
  {
    run := [Start(), Copying(), Unended()];
    CopyingFollows(false);
    UnendedFollows();
    UnendedIs();
    hide Follows, Outcomes, Done, Decided, StaysBehind;
    forall more: seq<Point> | IsRun(run + more, false)
      ensures var last := (run + more)[|run + more| - 1];
              last.hist.succeeded == 0 && last.store.cr.progress == Some(75)
    {
      assert (run + more)[2] == Unended();
      EndsAreNotMadeUpFor(run + more, false, 2, |run + more| - 1);
      StaysUnended((run + more)[|run + more| - 1]);
    }
  }

  lemma UnendedIs()
    ensures Unended().hist.succeeded == 0 && Unended().store.cr.progress == Some(75)
    ensures Outcomes(Unended()) == Ready && Settled(Unended().store.cr, false)
  {
    DoneSays(75, Kept(), false);
  }

  lemma StaysUnended(p: Point)
    requires StaysBehind(Unended(), p)
    ensures p.hist.succeeded == 0 && p.store.cr.progress == Some(75)
  {}

  lemma UnendedFollows()
    ensures Follows(Copying(), Unended(), false)
  {
    CopyingSays();
    DoneSays(75, Kept(), false);
    hide OutcomeOf, Positive, Decided;
    assert Inv(Unended().store, Unended().hist, false);
  }

  /** The clean-up of the success could not remove the restore finalizer. */
  function Unreleased(deleted: bool): Point {
    Point(Store(Done(100, [RestoreVMState], deleted), {"vm"}, {"disk"}, Down),
          Copying().hist.(sound := false, succeeded := 1))
  }

  function StartedAgain(): Point {
    Point(Store(Done(100, [], true), {"vm"}, {"disk"}, Up), Unreleased(true).hist.(asked := 1))
  }

  /** A restore finalizer that the clean-up of a success could not remove has the source started when the
      import is deleted, although its imported copy is there. */
  lemma SourceIsStartedAfterSuccess() returns (run: seq<Point>)
    ensures IsRun(run, false) && |run| == 5
    ensures Outcomes(run[2]) == Ready && run[2].hist.succeeded == 1 && run[2].hist.asked == 0
    ensures Disturbed(run[2].store, run[2].hist, run[3].store, run[3].hist)
    ensures var last := run[4];
            last.hist.asked == 1 && last.store.power == Up && last.store.vms == {"vm"} && last.hist.quiet
  {
    run := [Start(), Copying(), Unreleased(false), Unreleased(true), StartedAgain()];
    DoneSays(100, [RestoreVMState], false);
    hide Follows, OutcomeOf, Decided;
    CopyingFollows(false);
    UnreleasedFollows();
    UnreleasedDeleted();
    StartedFollows();
  }

  lemma UnreleasedFollows()
    ensures Follows(Copying(), Unreleased(false), false)
  {
    CopyingSays();
    DoneSays(100, [RestoreVMState], false);
    hide OutcomeOf, Positive, Decided;
    assert Inv(Unreleased(false).store, Unreleased(false).hist, false);
  }

  lemma UnreleasedDeleted()
    ensures var p, q := Unreleased(false), Unreleased(true);
            Disturbed(p.store, p.hist, q.store, q.hist) && Follows(p, q, false)
  {
    hide Inv, Reconciled, LeftAlone;
  }

  lemma StartedFollows()
    ensures Follows(Unreleased(true), StartedAgain(), false)
  {
    DoneSays(100, [RestoreVMState], true);
    DoneSays(100, [], true);
    hide OutcomeOf, Positive, Decided;
    assert Inv(StartedAgain().store, StartedAgain().hist, false);
  }

  /** Somebody else's VM. */
  function There(): Point {
    Start().(store := Start().store.(vms := {"vm"}))
  }

  /** The disk of an import that took that VM for its target could not be created. */
  function Taken(): Point {
    Point(Store(Import(Decided(ProcessingFailed, DataVolumeCreationFailed, False), Some(100), Some(Up), [], false,
                       "vm", []),
                {}, {}, Up),
          History(Up, true, true, true, 0, 1, 1, Nothing().(done := true, listRead := true, stranger := true)))
  }

  /** A VM that is there under the name of the target becomes the target, and a failure deletes it. The run
      is calm. */
  lemma ForeignVMIsDeleted(startVM: bool) returns (run: seq<Point>)
    ensures IsRun(run, startVM) && |run| == 3
    ensures FoundThere(run[1], run[2]) && StrangerDeleted(run[1], run[2])
    ensures run[1].store.vms == {"vm"} && run[2].store.vms == {}
    ensures run[2].hist.calm && run[2].hist.cleanup.stranger
  {
    run := [Start(), There(), Taken()];
    TakenFollows(startVM);
    ThereFollows(startVM);
    TakenIs();
    hide Follows, OutcomeOf, Decided, FoundThere, StrangerDeleted;
  }

  lemma TakenSays()
    ensures var cr := Taken().store.cr;
            OutcomeOf(cr) == Failed && Positive(cr) && Unique(cr.conditions)
  {
    DecidedSays(Taken().store.cr, ProcessingFailed, DataVolumeCreationFailed, False);
    hide StateOf;
  }

  lemma TakenIs()
    ensures FoundThere(There(), Taken()) && StrangerDeleted(There(), Taken())
  {
    TakenSays();
    hide OutcomeOf, Decided;
  }

  lemma ThereFollows(startVM: bool)
    ensures Follows(Start(), There(), startVM)
  {
    hide Inv, Reconciled, LeftAlone;
  }

  lemma TakenFollows(startVM: bool)
    ensures Follows(There(), Taken(), startVM)
  {
    TakenSays();
    TakenInv(startVM);
    FreshSays();
    hide Inv, OutcomeOf, Positive, Decided;
  }

  lemma TakenInv(startVM: bool)
    ensures Inv(Taken().store, Taken().hist, startVM)
  {
    TakenSays();
    hide OutcomeOf, Positive, Decided, Unique, StateOf;
  }

  /** In a calm run the source is left as it was found:
      - once the import is validated, the recorded state is the power the source had at first;
      - a failed import has asked for a start exactly if the source had been up, or never touched it;
      - a successful one never asks for a start, then or later, and leaves no finalizer to do so;
      - a deleted one that can go away has asked for a start if the source had been up, or never
        touched it. */
  lemma SourceIsGivenBack(run: seq<Point>, startVM: bool, i: nat, j: nat)
    requires IsRun(run, startVM) && i <= j < |run|
    requires run[j].hist.calm
    ensures run[j].hist.original == run[0].store.power
    ensures Positive(run[j].store.cr) ==> run[j].store.cr.initialState == Some(run[0].store.power)
    ensures Outcomes(run[j]) == Failed && Positive(run[j].store.cr) ==>
              (run[j].hist.asked > 0 <==> run[0].store.power == Up)
    ensures !Positive(run[j].store.cr) ==> run[j].hist.asked == 0 && run[j].store.power == run[0].store.power
    ensures Succeeding(Outcomes(run[i])) ==> run[j].hist.asked == 0 && RestoreVMState !in run[j].store.cr.finalizers
    ensures Outcomes(run[j]) == Undecided && RestoreVMState !in run[j].store.cr.finalizers ==>
              || (run[j].hist.asked == 0 && run[j].store.power == run[0].store.power)
              || (run[j].hist.asked > 0 && run[0].store.power == Up)
  {
    LaterInRuns(run, startVM, 0, j);
    LaterInRuns(run, startVM, i, j);
    InvariantAlongRuns(run, startVM, j);
  }

  // ---------------------------------------------------------------------------------------------
  // The controller makes such runs

  function LeftOf(c: CleanUps, vms: set<string>): CleanUps {
    c.(own := c.own * vms)
  }

  /** Anybody else's doing. */
  method WorldMoves(client: Client)
    requires "" !in client.store.vms
    modifies client
    ensures Disturbed(old(client.store), old(client.hist), client.store, client.hist)
  {
    var deleted: bool, vms: set<string>, gone: set<string>, powered: bool, power: Power := *, *, *, *, *;
    var replaced: set<string>, foreign: bool, name: string := *, *, *;
    var s := client.store;
    var cr := s.cr.(deleted := s.cr.deleted || deleted);
    if foreign {
      cr := cr.(finalizers := if Foreign(name) in cr.finalizers then Without(cr.finalizers, Foreign(name))
                              else cr.finalizers + [Foreign(name)]);
    }
    client.store := Store(cr, vms - {""}, s.dvs - gone, if powered then power else s.power);
    client.hist := client.hist.(quiet := client.hist.quiet && !powered && !foreign,
                                cleanup := LeftOf(client.hist.cleanup, client.store.vms - replaced));
  }

  /** Any number of reconciles and of other events, in any order, makes a run. */
  method Drive(reconciler: ImportReconciler, steps: nat) returns (ghost run: seq<Point>)
    requires Initial(reconciler.client.store, reconciler.client.hist)
    modifies reconciler.client, reconciler.client.seen
    ensures IsRun(run, reconciler.startVM)
    ensures run[|run| - 1] == Point(reconciler.client.store, reconciler.client.hist)
  {
    hide Answered, Untroubled, Reconciled, Records, Settled, LeftAlone;
    var client := reconciler.client;
    run := [Point(client.store, client.hist)];
    InitialInv(client.store, client.hist, reconciler.startVM);
    for i := 0 to steps
      invariant IsRun(run, reconciler.startVM)
      invariant run[|run| - 1] == Point(client.store, client.hist)
      invariant Inv(client.store, client.hist, reconciler.startVM)
    {
      ghost var s, h := client.store, client.hist;
      var reconcile: bool := *;
      if reconcile {
        var reply := reconciler.Reconcile();
      } else {
        WorldMoves(client);
        DisturbedKeepsInv(s, h, client.store, client.hist, reconciler.startVM);
      }
      ghost var q := Point(client.store, client.hist);
      assert Follows(run[|run| - 1], q, reconciler.startVM);
      assert forall k | 0 <= k < |run| :: (run + [q])[k] == run[k];
      run := run + [q];
    }
  }
}
