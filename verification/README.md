# Verification of the VM import operator

The operator imports virtual machines from oVirt and VMware into KubeVirt. For each
`VirtualMachineImport` object a controller reconciles again and again: it validates the source VM,
stops it, creates a target VM, imports its disks as DataVolumes, converts the guest where that is
needed, declares the import ready and may start the new VM. Any step may fail, the user may delete the
import at any time, and every call to the API server or the source may go wrong.

This project models that controller and the pure logic it rests on, and proves what holds of every
run. Run `dafny verify dfyconfig.toml` to check it.

## How it is built

| file | models |
|---|---|
| Controller.dfy, Provider.dfy, ImportStore.dfy, Cleanup.dfy | the reconcile and everything it calls, as classes over an API store whose calls may fail |
| ImportState.dfy | the invariant that holds between reconciles and the steps that are allowed |
| Runs.dfy | theorems on whole runs, and a driver that shows the controller makes such runs |
| Conditions.dfy, Progress.dfy, Validation.dfy | conditions, progress and the validation gate |
| Mappings.dfy, MergeLaws.dfy | the resource-mapping indexes, the merge and its laws |
| StorageMapping.dfy, OvirtDisks.dfy, StorageMerges.dfy, Networks.dfy | validating mappings by index against using them by scan, also when they are merged again; DataVolumes, interfaces and networks |
| Bytes.dfy, Numerals.dfy, Names.dfy, VmwareDisks.dfy, CpuPinning.dfy | sizes, names and labels, attaching disks, CPU pinning |

A reconcile works on a `Snapshot` taken once, as the source does: writes go to the store and are not
seen by the snapshot, except for the finalizers. The choices of the environment (answers of the API
server, of the source and of the provider, phases of DataVolumes, jobs, the order of Go maps) are
nondeterministic assignments, so every contract holds for all of them. What was answered in a reconcile is
written down, as ghost state, where it is read: in `Observations`, in `troubled` if a call failed or did not
find what it was to find, and in `refused` if that was a call for the import itself. Each method states what
it does to the store, and small step lemmas show that this keeps the invariant. `History` is a ghost record
of what has happened (how often each end of an import was run, how often the source was asked to start, what
clean-ups did, which VMs reconciles created). Two flags in it narrow the statements about the source:

- `sound`: no write to the import failed, no provider or mapping lookup the outcome depends on failed
  after the first positive validation, and neither reading the recorded state nor loading the source to
  start it failed;
- `quiet`: no attempt to stop the source failed, and nobody else changed the source's power or a finalizer.

A run is `calm` while both hold, and a reconcile in which no call fails, of a source that is up or down,
keeps it so. A stop that fails ends the quiet part of a run, so what is said of calm runs does not cover it;
what is said of sound runs does.

The main results:

- **Stable outcome.** In every run a failed import stays failed and a successful one successful; its
  reason moves from ready to running at most (`Runs.OutcomeIsStable`). The end of a success and the end
  of a failure never both run (`Runs.EndsOneWayOnly`), and progress never goes back between reconciles
  although single writes inside one may (`Runs.ProgressNeverDecreases`).
- **Clean failure.** After a failure clean-up without error no DataVolume is created again, although the
  disk loop goes on, and none is left (`Runs.NothingComesBackAfterCleanUp`); the target VM is gone, and
  back only if somebody else creates it (`Runs.TargetIsGoneAfterCleanUp`).
- **Ends are run, once.** In a sound run every success and every failure with progress is ended
  (`Runs.EndsAreRun`). What goes wrong in an end is never made up for: nothing is counted, cleaned up or
  removed by a later reconcile (`Runs.EndsAreNotMadeUpFor`, `Runs.LeftoversAreForOthers`).
- **Only the target is deleted.** A reconcile removes no VM but the recorded target of a failed import, and
  it is one that the import created, unless it was there before it was recorded or has been replaced
  (`Runs.OnlyTheTargetIsRemoved`, `Runs.WhoseTarget`, `Runs.OnlyOwnIsDeleted`).
- **The source is given back.** The recorded state is the source's power before the reconcile that
  recorded it. In a sound run, whatever others do, a failed import has asked the source to start exactly
  if it is recorded as up, and a deleted one exactly if, besides, the restore finalizer had been written
  (`Runs.SourceIsAskedFor`). In a calm run that is the power the source had at first, and a successful
  import never asks (`Runs.SourceIsGivenBack`).
- **Ready means done, and done means ready.** A reconcile of an undecided import that returns no error
  leaves it ready exactly if it found every mapped disk complete and, where it is needed, the conversion job
  successful; it has looked, unless the import failed. Errors and failures have a cause: some call failed, or
  something bad was found (`Controller.ImportReconciler.Reconcile`).
- **The merge is a map override** by ID, whatever the order of Go's maps, and it absorbs and associates
  (`MergeLaws`); lookups by name depend on that order, and the lemma says exactly when they do not.
- **Validation is worth something.** The validator's indexes and the mapper's scan choose the same item
  exactly when the match is settled, and then the storage checks pass exactly when every class a
  DataVolume names can be found (`OvirtDisks.PassedMeansFound`) - in a later reconcile as well, which
  merges the mappings again in another order (`StorageMerges.PassedMeansFoundLater`). With unique IDs the
  network check passes exactly when at most one pod network is made (`Networks.PassedMeansOnePodNetwork`).
- **One DataVolume per disk.** With a target name of up to 63 characters, and different IDs of up to 189,
  every disk gets a DataVolume of its own (`OvirtDisks.OneVolumePerDiskOfShortName`); for any target name
  of the shape of a label, exactly if the IDs differ as far as there is room
  (`OvirtDisks.OneVolumePerDiskIff`). Their volumes in the VM, whose names are shortened to 63 characters,
  differ exactly if less than that is enough (`OvirtDisks.VolumesDifferIff`,
  `VmwareDisks.EveryHardDiskHasItsVolume`).

## What the proofs brought to light

- `datavolumes.DeleteFor` drops the error of reading the import, so a clean-up can be reported as
  successful and leave the DataVolumes (`DataVolumes.SuccessMeansGone` is the exact condition,
  `DataVolumes.DroppedErrorLeavesVolume` an instance). A DataVolume that was created but could not be
  put on the list is not cleaned up either; `unlisted` in `CleanUps` stands for that.
- The failure branch of `createVM` overwrites `err`, so after a good clean-up the reconcile goes on with
  an empty VM name. Nothing is created under it, because `createDataVolume` must find the VM first. An
  import without any disk is not modelled, hence the assumption of at least one.
- A stop of the source that fails, but brings it down all the same, is not made good when the import is
  deleted: the next reconcile finds the source down and never writes the restore finalizer
  (`Provider.RetryWritesNothing`; `Runs.FailedStopIsNotGivenBack` is a run of the steps the contracts
  allow, and `Runs.SourceIsAskedFor` has the exact condition).
- `createVM` goes on when the VM exists, whoever made it, and records it as the target; a failure after that
  deletes it (`Runs.ForeignVMIsDeleted`; `Runs.RecordedIsOwnIff` is the exact condition for the target to be
  the import's own).
- An import that is ready and has no VM to start is not reconciled again. If the last write of progress
  failed it is never ended (`Runs.SuccessIsNotEnded`), and if the restore finalizer could not be removed,
  deleting the import has the source started beside its copy (`Runs.SourceIsStartedAfterSuccess`).
- An import that fails before any progress gets the finalizer for cancelling back whenever it is
  reconciled (`Runs.CancelFinalizerComesBack`, `Controller.ImportReconciler.Reconcile`).
- A blocking failure with an empty message would not block (`Validation.SilentBlockIsLetThrough`); the
  messages of the validators are not empty, so this is a condition on checks to come, and
  `Validation.GateIsExact` says what the gate does in any case.
- `NormalizeName` may return an invalid name, exactly when it cuts right after a dash (`Names.NamesComeOut`).
- The mapper's scan dereferences a storage domain that a disk does not have (`NilStorageDomain` in
  `StorageMapping`), and an attachment without a disk. The storage checks do not look at either; whether
  such a disk gets that far is up to the disk rules, which block those they know and are not modelled.
- When a disk matches two mapping items, the validator may check another class than the mapper uses
  (`StorageMapping.TwoMatchesDisagree`), and two items appended by the merge may be found in either order
  (`StorageMerges.ScansAgreeIff`). Pod networks mapped by name are not counted by the validator: two of
  them pass the check that allows one (`Networks.TwoPodNetworksPass`, with
  `Networks.CountedRightForQualifiedNames` for when a NIC is counted right).
- Volumes are named after their DataVolumes, shortened to 63 characters, and so disks of one VM may share
  a volume name. With VMware that is so of two to ten hard disks exactly if the target's name has more than
  50 characters, of more disks even before (`VmwareDisks.EveryHardDiskHasItsVolume`). With the IDs of 36
  characters that oVirt has, it cannot be for targets of up to 23 characters, and it is always so from 56
  on (`OvirtDisks.VolumesDifferIff`, `Names.VolumeRoomForIDs`).
- VMware disks are attached in the order of their names and not, as the comment in `MapDisk` promises, of
  the source's devices: the two agree exactly if the names are sorted (`VmwareDisks.InDeviceOrderIff`).
  Those of hard disks are if there are fewer than ten, or if the target's name has at least 51 characters,
  where all that is left of them in a name is the number of their digits (`VmwareDisks.DevicesInOrderIff`).
- A mapping or secret that is missing for a while makes a validated import be validated again, and the
  source, stopped by then, be recorded as down; a failure after that does not ask for a start
  (`Runs.RecordIsLost`). Only a reconcile that finds the import not valid can change the record
  (`Runs.RecordedBefore`).
- Two places disagree with their documentation, and the model follows the code: docs/design.md gives
  progress 30 and 40 for creating the VM and copying disks where the code writes 5 and 10, and the
  comment on `disksImportProgress` computes with 0.75 where the constant is 0.65. `IsCPUPinningExact` is
  documented in terms of vCPUs, but counts CPUs (`CpuPinning.OneVcpuTwiceIsExact`).

## Model

| member | source | states |
|---|---|---|
| Runs.OutcomeIsStable | pkg/controller/virtualmachineimport/virtualmachineimport_controller.go:848-858 | over any run of reconciles and outside events Succeeded=False stays, Succeeded=True stays, and the reason moves only from ready to running, and only if the VM was to be started |
| Runs.ProgressNeverDecreases | pkg/controller/virtualmachineimport/virtualmachineimport_controller.go:1106-1130 | progress between reconciles stays in 0..100, is never lost and never decreases; a successful import has one |
| Runs.NothingComesBackAfterCleanUp | pkg/controller/virtualmachineimport/virtualmachineimport_controller.go:480-563 | after a clean-up without error: failed for good, no DataVolume is ever created, the listed ones are gone unless the list could not be read, and all are gone unless one was never listed |
| Runs.TargetIsGoneAfterCleanUp | pkg/controller/virtualmachineimport/virtualmachineimport_controller.go:1158-1181 | once a clean-up is done, a target VM that is there was missing at a later point of the run and was then created by somebody else, not by a reconcile |
| Runs.EndsOneWayOnly | pkg/controller/virtualmachineimport/virtualmachineimport_controller.go:1132-1181 | afterSuccess and afterFailure never both run in one import's life; afterSuccess runs once at most, twice when the VM is to be started |
| Runs.SourceIsGivenBack | pkg/controller/virtualmachineimport/virtualmachineimport_controller.go:1183-1199 | in a calm run the recorded state is the source's power before the import; a failed end has asked for a start iff it was up; a successful one never asks; a deleted one that may go has asked if it was up, or never touched it |
| Runs.SourceIsAskedFor | pkg/controller/virtualmachineimport/virtualmachineimport_controller.go:387-406 | in a sound run, with failed stops, foreign finalizers and outside switches: the state is recorded once; the source is asked to start only if recorded as up; a failed end has asked iff it is; a deleted import with nothing left to restore has asked iff, besides, the restore finalizer had been written |
| Runs.RecordedBefore | pkg/controller/virtualmachineimport/virtualmachineimport_controller.go:1345-1354 | the recorded state is the source's power before the reconcile that recorded it, and that one found the import not valid |
| Runs.FailedStopIsNotGivenBack | pkg/providers/ovirt/provider.go:285-293 | a sound run in which a failed stop brings the source down, and the deleted import goes away without asking for a start |
| Runs.CancelFinalizerComesBack | pkg/controller/virtualmachineimport/virtualmachineimport_controller.go:235-241 | a run in which an import failed without progress, lost its finalizer and got it back |
| Runs.RecordIsLost | pkg/controller/virtualmachineimport/virtualmachineimport_controller.go:1285-1359 | a run in which a lookup fails, the stopped source is recorded as down, and the failed import does not ask for the start of a source that was up |
| Runs.FinalizersFollowTheEnd | pkg/controller/virtualmachineimport/virtualmachineimport_controller.go:235-265 | a success run to its end shows progress 100; in a calm run an ended import has no finalizer of its own left, except that one without progress may have the one for cancelling; one under way, with progress, has that |
| Runs.EndsAreRun | pkg/controller/virtualmachineimport/virtualmachineimport_controller.go:361-382 | in a sound run a success has been counted and shows progress 100, unless its VM is still to be started, and a failure with progress has been cleaned up after |
| Runs.EndsAreNotMadeUpFor | pkg/controller/virtualmachineimport/virtualmachineimport_controller.go:848-858 | from the point where an import has failed, runs its VM, or is ready and has none to start, nothing is ended, counted or cleaned up again; lists, target and progress stay; until it is deleted so does the restore finalizer, and the source is not asked for |
| Runs.LeftoversAreForOthers | pkg/controller/virtualmachineimport/virtualmachineimport_controller.go:848-858 | a VM or DataVolume that is there by then is removed in a step of somebody else, or stays |
| Runs.SuccessIsNotEnded | pkg/controller/virtualmachineimport/virtualmachineimport_controller.go:371-378 | a run in which progress 100 could not be written: the import is ready, and in no continuation is its success counted or its progress 100 |
| Runs.SourceIsStartedAfterSuccess | pkg/controller/virtualmachineimport/virtualmachineimport_controller.go:387-406 | a run in which the restore finalizer outlives the success, and the deleted import has the source started beside its copy |
| Runs.RecordedIsOwnIff | pkg/controller/virtualmachineimport/virtualmachineimport_controller.go:716-754 | a target that has just been recorded is a VM the import created iff no VM of that name, other than its own, was there before |
| Runs.WhoseTarget | pkg/controller/virtualmachineimport/virtualmachineimport_controller.go:716-754 | a target that is not the import's own was there before it was recorded, or was replaced by somebody else since |
| Runs.OnlyTheTargetIsRemoved | pkg/virtualmachines/virtualmachines.go:29-59 | a VM that a reconcile removes is the recorded target of a failed import; it is the import's own, or the import deletes a stranger |
| Runs.StrangerIsRemembered | pkg/virtualmachines/virtualmachines.go:48-59 | the history has a stranger deleted iff some reconcile of the run did that |
| Runs.OnlyOwnIsDeleted | pkg/virtualmachines/virtualmachines.go:48-59 | if the target was not found there, and not replaced, no reconcile deletes a VM that none had created |
| Runs.ForeignVMIsDeleted | pkg/controller/virtualmachineimport/virtualmachineimport_controller.go:716-754 | a calm run in which creating the VM finds one of that name, and the failure that follows deletes it |
| Runs.InvariantAlongRuns | pkg/controller/virtualmachineimport/virtualmachineimport_controller.go:217-385 | the invariant holds at every point of every run, by induction on the run |
| Runs.LaterInRuns | pkg/controller/virtualmachineimport/virtualmachineimport_controller.go:217-385 | what holds between any two points of a run, from the steps between them |
| Runs.Drive | pkg/controller/virtualmachineimport/virtualmachineimport_controller.go:217-385 | any number of reconciles, interleaved with anything the rest of the world may do, is a run in the sense of the theorems |
| Controller.ImportReconciler.Reconcile | pkg/controller/virtualmachineimport/virtualmachineimport_controller.go:217-385 | keeps the invariant and makes an allowed step, whatever the environment answers. An undecided import becomes ready only with all disks found complete in this reconcile and, for VMware, a finished conversion; without an error it is ready iff that is so, and unless it failed every mapped disk that was there has been looked at. It fails only if some call failed or something bad was found, and it returns an error only if some call failed or the source is neither up nor down. A ready import with a VM to start has that VM looked up and, if it runs, becomes running. It asks to be run again soon only for an import that was and is not valid, or whose locked source is still to be given back; what it records is the source's power before it, and only for an import that was not valid; one that failed without progress has the finalizer for cancelling whenever it was read; once settled, nothing but conditions and finalizers changes, and a start is asked for only after a deletion; without trouble the run stays calm |
| Controller.ImportReconciler.CancelImport | pkg/controller/virtualmachineimport/virtualmachineimport_controller.go:243-265 | a deleted import loses every cancel finalizer, keeps the others in their order, and nothing else changes |
| Controller.ImportReconciler.HoldOnTo | pkg/controller/virtualmachineimport/virtualmachineimport_controller.go:235-241 | an import without progress takes the finalizer for cancelling behind those it has, and nothing else changes; with progress nothing does |
| Controller.ImportReconciler.Continue | pkg/controller/virtualmachineimport/virtualmachineimport_controller.go:267-300 | the part after the finalizers: without a provider a new import fails and any other waits; otherwise the next row; the same promises as above |
| Controller.ImportReconciler.SeeTo | pkg/controller/virtualmachineimport/virtualmachineimport_controller.go:289-300 | a deleted import gives back its source, one that is settled is left alone, any other is run; the same promises |
| Controller.ImportReconciler.WithoutProvider | pkg/controller/virtualmachineimport/virtualmachineimport_controller.go:275-283 | a new import fails as not validated, one in progress is an error and stays as it was |
| Controller.ImportReconciler.RunImport | pkg/controller/virtualmachineimport/virtualmachineimport_controller.go:302-385 | fetch, validate, stop and import; the same promises |
| Controller.ImportReconciler.Proceed | pkg/controller/virtualmachineimport/virtualmachineimport_controller.go:316-385 | what a valid import goes through: stopping the source, then the stages; without an error an undecided one is ready iff there is evidence, which has been looked for unless it failed, and a ready one has had its VM seen to; errors and failures have a cause |
| Controller.ImportReconciler.Advance | pkg/controller/virtualmachineimport/virtualmachineimport_controller.go:339-385 | from a stopped source to either end; without an error ready iff the evidence is there, and a ready import has its VM seen to; errors and failures have a cause |
| Controller.ImportReconciler.FinishImport | pkg/controller/virtualmachineimport/virtualmachineimport_controller.go:371-382 | an import that has just become ready is ended once, and stays ready |
| Controller.ImportReconciler.ImportStages | pkg/controller/virtualmachineimport/virtualmachineimport_controller.go:328-359 | without an error it goes on to ready iff all disks are complete and the conversion is done, and then with a recorded target and progress; every mapped disk that was there has been looked at, unless the import failed, which has a cause |
| Controller.ImportReconciler.ImportInto | pkg/controller/virtualmachineimport/virtualmachineimport_controller.go:339-359 | the disks and the guest, once the target VM is there: the same |
| Controller.ImportReconciler.Finalize | pkg/controller/virtualmachineimport/virtualmachineimport_controller.go:387-406 | for a deleted import in a sound run the source is asked once more to start, if it is recorded as up; a locked disk, and nothing else, keeps the finalizer and the import in the queue |
| Controller.ImportReconciler.ConvertGuest | pkg/controller/virtualmachineimport/virtualmachineimport_controller.go:428-470 | done iff the job has succeeded and has none active or failed; one that has failed, with none active, leaves the import failed for that reason and cleaned up; otherwise it stays undecided |
| Controller.ImportReconciler.StartConversion | pkg/controller/virtualmachineimport/virtualmachineimport_controller.go:440-455 | without error the job is launched, converting is what the import says it does, and progress is 70 at least |
| Controller.ImportReconciler.ImportDisks | pkg/controller/virtualmachineimport/virtualmachineimport_controller.go:472-573 | in any map order, done iff every mapped disk was found complete, and then nothing failed on the way; each one that was there has been looked at, unless the import failed; progress is at least that of the disks |
| Controller.ImportReconciler.LookAtDisks | pkg/controller/virtualmachineimport/virtualmachineimport_controller.go:478-563 | the loop, in any map order: counted as done is exactly what was found complete, and after a failure something is missing |
| Controller.ImportReconciler.ImportDisk | pkg/controller/virtualmachineimport/virtualmachineimport_controller.go:480-563 | one turn of the loop: an absent DataVolume whose disk is fit is created and listed, or the import fails, as it does when its disk is not fit; one that is there is complete iff its phase says so; going on after a failure happens only once that has been cleaned up |
| Controller.ImportReconciler.FollowDataVolume | pkg/controller/virtualmachineimport/virtualmachineimport_controller.go:507-559 | complete iff the phase is Succeeded; a failed phase that is dealt with leaves the import failed; a pending one is said to be so, and so is a running one, or it has failed iff its pod crashes; nothing else is written |
| Controller.ImportReconciler.CheckImporterPod | pkg/controller/virtualmachineimport/virtualmachineimport_controller.go:531-550 | if a container crashes the import ends as failed, cleaned up; if none does, nothing is written; nothing is created |
| Controller.ImportReconciler.EndAsFailed | pkg/controller/virtualmachineimport/virtualmachineimport_controller.go:575-637 | without error: failed for the given reason, processing failed, progress 100, counted, cleaned up, source given back |
| Controller.ImportReconciler.CreateVM | pkg/controller/virtualmachineimport/virtualmachineimport_controller.go:643-760 | returns the recorded, existing target, created or found, with progress 5 at least; or an empty name and no error exactly when the import failed and was cleaned up |
| Controller.ImportReconciler.PrepareVM | pkg/controller/virtualmachineimport/virtualmachineimport_controller.go:643-713 | without error undecided still, with the VM mapped, and creating it; undecided unless neither a template nor an empty VM is to be had, and then failed for that reason, cleaned up, with progress as it was; an error has a cause |
| Controller.ImportReconciler.MakeSpec | pkg/controller/virtualmachineimport/virtualmachineimport_controller.go:656-692 | without error the source VM is mapped onto a VM made from the template or, if there is none or it cannot be processed, from nothing where the cluster allows that; it counts as matched unless there is neither |
| Controller.ImportReconciler.FailCreation | pkg/controller/virtualmachineimport/virtualmachineimport_controller.go:1361-1379 | a template that does not match or a VM that cannot be created fails and cleans up the import for the reason given; progress stays as it was |
| Controller.ImportReconciler.RecordTarget | pkg/controller/virtualmachineimport/virtualmachineimport_controller.go:742-759 | the created VM, read back, is the recorded target |
| Controller.ImportReconciler.StartTargetVM | pkg/controller/virtualmachineimport/virtualmachineimport_controller.go:796-830 | without an error the import is running iff its VM was found running, and then its end was run once; a VM not there yet leaves progress 90 at least; otherwise nothing is written |
| Controller.ImportReconciler.EndRunning | pkg/controller/virtualmachineimport/virtualmachineimport_controller.go:815-827 | running is written, progress is 100, and the end of a success is run once |
| Controller.ImportReconciler.UpdateConditionsAfterSuccess | pkg/controller/virtualmachineimport/virtualmachineimport_controller.go:832-846 | the outcome becomes ready or running, processing is completed if the snapshot had any, and validity is not touched |
| Controller.ImportReconciler.ShouldReconcile | pkg/controller/virtualmachineimport/virtualmachineimport_controller.go:848-858 | true iff undecided, or ready with a VM to start |
| Controller.ImportReconciler.HasSucceeded | pkg/controller/virtualmachineimport/virtualmachineimport_controller.go:860-871 | reads off the snapshot whether it is ready, or running |
| Controller.ImportReconciler.CreateDataVolume | pkg/controller/virtualmachineimport/virtualmachineimport_controller.go:880-941 | creates only for a disk that was found fit, and only under the recorded target VM, which it must find; without error the DataVolume exists and is listed, and nothing had been cleaned up |
| Controller.ImportReconciler.Announce | pkg/controller/virtualmachineimport/virtualmachineimport_controller.go:880-893 | what the import says it does and its least progress, and nothing else |
| Controller.ImportReconciler.MakeVolume | pkg/controller/virtualmachineimport/virtualmachineimport_controller.go:899-931 | without error created and listed; one that is created and cannot be listed is remembered |
| Controller.ImportReconciler.ShouldInvoke | pkg/controller/virtualmachineimport/virtualmachineimport_controller.go:968-977 | validation is run iff not both conditions are True |
| Controller.ImportReconciler.UpdateDVs | pkg/controller/virtualmachineimport/virtualmachineimport_controller.go:1021-1045 | a name that is not on the list is put at its end, one that is there changes nothing |
| Controller.ImportReconciler.UpdateTargetVMName | pkg/controller/virtualmachineimport/virtualmachineimport_controller.go:1047-1063 | only the target name changes, and only without error |
| Controller.ImportReconciler.UpsertStatusConditions | pkg/controller/virtualmachineimport/virtualmachineimport_controller.go:1082-1093 | each kind ends with the status and reason of its last new condition, or keeps them; nothing else is written |
| Controller.ImportReconciler.StoreSourceVMStatus | pkg/controller/virtualmachineimport/virtualmachineimport_controller.go:1095-1104 | the initial state is recorded, and nothing else |
| Controller.ImportReconciler.UpdateProgress | pkg/controller/virtualmachineimport/virtualmachineimport_controller.go:1106-1130 | written iff above the snapshot's progress |
| Controller.ImportReconciler.AfterSuccess | pkg/controller/virtualmachineimport/virtualmachineimport_controller.go:1132-1155 | counted once, the finalizers released, the outcome kept |
| Controller.ImportReconciler.CountSuccess | pkg/controller/virtualmachineimport/virtualmachineimport_controller.go:1132-1137 | the success is counted, and the finalizer for cancelling released |
| Controller.ImportReconciler.AfterFailure | pkg/controller/virtualmachineimport/virtualmachineimport_controller.go:1158-1181 | counted once; creates nothing; without error cleaned up; the source given back iff it was up |
| Controller.ImportReconciler.LeaveFailed | pkg/controller/virtualmachineimport/virtualmachineimport_controller.go:1158-1163 | the failure is counted, and the finalizer for cancelling released |
| Controller.ImportReconciler.RestoreInitialVMState | pkg/controller/virtualmachineimport/virtualmachineimport_controller.go:1183-1199 | the source is asked to start iff the recorded state is up |
| Controller.ImportReconciler.InitProvider | pkg/controller/virtualmachineimport/virtualmachineimport_controller.go:1223-1260 | passes iff secret, provider and, without progress, connection are there, writing nothing; otherwise the import is told which of them is at fault and so is not valid, unless the secret or the import could not be read or the import not written; a new import's connection is tried; the outcome is kept |
| Controller.ImportReconciler.UpsertValidationCondition | pkg/controller/virtualmachineimport/virtualmachineimport_controller.go:1262-1273 | without error not valid, for the reason given; outcome and progress are kept |
| Controller.ImportReconciler.FailNewImportProcess | pkg/controller/virtualmachineimport/virtualmachineimport_controller.go:1275-1283 | fails an import without progress, or changes nothing |
| Controller.ImportReconciler.FetchVM | pkg/controller/virtualmachineimport/virtualmachineimport_controller.go:1285-1319 | loads the source iff it is still to be validated; passes iff it is loaded and the mapping is there, writing nothing; otherwise the import is told which of them is missing and so is not valid, unless the mapping or the import could not be read or the import not written |
| Controller.ImportReconciler.ValidateImport | pkg/controller/virtualmachineimport/virtualmachineimport_controller.go:1321-1359 | runs a validation iff not both conditions are True; one that is run lets the import on iff nothing that blocks is reported, and then the source's power is what is recorded |
| ImportState.DisturbedKeepsInv | pkg/controller/virtualmachineimport/virtualmachineimport_controller.go:243-294 | deletion, foreign finalizers and anybody's changes to VMs, DataVolumes and the source keep the invariant |
| ImportStore.AddFinalizer | pkg/utils/utils.go:282-297 | appended once, in store and snapshot alike, or nothing |
| ImportStore.RemoveFinalizer | pkg/utils/utils.go:310-332 | every occurrence removed, in store and snapshot alike, or nothing |
| ImportStore.AddThenRemove | pkg/utils/utils.go:282-332 | removing what was added gives the old list back |
| Provider.SourceProvider.GetVMStatus | pkg/providers/ovirt/provider.go:106-120 | up or down from the cached VM; an error iff it cannot be read or is in any other state |
| Provider.SourceProvider.Validate | pkg/providers/ovirt/provider.go:259-269 | two conditions, with the status the findings call for |
| Provider.SourceProvider.StopVM | pkg/providers/ovirt/provider.go:272-295 | without error the source is down, and the restore finalizer set iff it was not before; an error, which has a cause, may leave the source in any state |
| Provider.SourceProvider.StartVM | pkg/providers/ovirt/provider.go:344-360 | asks once for a start; a source that is down is up if the call succeeds, and nothing else is written |
| Provider.SourceProvider.CleanUp | pkg/providers/ovirt/provider.go:363-398 | the restore finalizer goes; after a failure so do DataVolumes and target VM, the latter for certain without error; an error has a cause |
| Provider.SourceProvider.DeleteVolumes | pkg/datavolumes/datavolumes.go:49-64 | without error the listed DataVolumes are gone, or the list could not be read, which is trouble |
| DataVolumes.FindFor | pkg/datavolumes/datavolumes.go:25-46 | one object for each listed name, an empty one where the read fails |
| DataVolumes.DeleteFor | pkg/datavolumes/datavolumes.go:49-64 | the result and the DataVolumes left are those of deleting, in order, what FindFor found; the next two rows say what that means |
| DataVolumes.DeleteForSucceeds | pkg/datavolumes/datavolumes.go:49-64 | nil iff the import could not be read, or every listed DataVolume was listed once, existed, and was read and deleted |
| DataVolumes.SuccessMeansGone | pkg/datavolumes/datavolumes.go:49-64 | after success none of the listed is left iff the import was read or there was none; unlisted ones stay |
| DataVolumes.DroppedErrorLeavesVolume | pkg/datavolumes/datavolumes.go:49-64 | success with the DataVolume still there |
| VirtualMachines.DeleteFor | pkg/virtualmachines/virtualmachines.go:29-59 | success iff no target was recorded, or it existed and is gone, whoever had created it |
| Validation.ProcessFailures | pkg/providers/ovirt/validation/vm-import-validation.go:192-205 | the messages that warn and those that block, each joined in order |
| Validation.ProcessMappingValidationFailures | pkg/providers/ovirt/validation/vm-import-validation.go:172-180 | False iff something that blocks is reported, with the reason for it and its messages joined |
| Validation.ProcessValidationFailures | pkg/providers/ovirt/validation/vm-import-validation.go:182-190 | the same for the rules |
| Validation.Validate | pkg/providers/ovirt/validation/vm-import-validation.go:139-155 | one condition from the mapping checks, one from the VM, NIC and disk rules, each with the status, reason and message its failures call for |
| Validation.JoinedIsEmptyIff | pkg/utils/utils.go:161-166 | the joined message is empty iff no failure of that action has something to say |
| Validation.JoinedOfOne | pkg/providers/ovirt/validation/vm-import-validation.go:192-205 | a failure adds its message iff its check is listed with the action; one that is not listed is logged |
| Validation.JoinedOfConcat | pkg/utils/utils.go:161-166 | every message is joined, in the order of the failures, with a comma and a space between |
| Validation.GateIsExact | pkg/controller/virtualmachineimport/virtualmachineimport_controller.go:1209-1221 | the import goes on iff no check of any of the five kinds reports something that blocks; with messages that are not empty, iff no failure has that action |
| Validation.SilentBlockIsLetThrough | pkg/providers/ovirt/validation/vm-import-validation.go:192-205 | a blocking failure without a message does not block |
| Conditions.StatusCopy.UpsertCondition | pkg/conditions/conditions.go:36-51 | the list in place becomes the one the next rows describe |
| Conditions.FindConditionOfType | pkg/conditions/conditions.go:54-61 | the first condition of the kind, or none |
| Conditions.HasSucceededConditionOfReason | pkg/conditions/conditions.go:64-75 | true iff some Succeeded condition has one of the reasons, whatever its status |
| Conditions.UpsertFind | pkg/conditions/conditions.go:36-51 | one condition per kind is kept, other kinds are untouched |
| Conditions.HistoryOfUpserts | pkg/conditions/conditions.go:36-51 | after any upserts from an empty list: one condition per kind; reason and message of the last upsert; transition time of the first upsert in the last run of equal statuses |
| Progress.CountImportedDataVolumes | pkg/utils/utils.go:188-197 | the number of true values, in any map order |
| Progress.EqualCountsMeanAllDone | pkg/controller/virtualmachineimport/virtualmachineimport_controller.go:873-878 | equal counts mean that all mapped disks are done |
| Progress.DisksImportProgress | pkg/controller/virtualmachineimport/virtualmachineimport_controller.go:1397-1405 | the sum over any map order, averaged and scaled |
| Progress.SumAt | pkg/controller/virtualmachineimport/virtualmachineimport_controller.go:1399-1402 | the sum may be taken apart at any disk, and that of no disks is zero |
| Progress.DiskStageIs | pkg/controller/virtualmachineimport/virtualmachineimport_controller.go:1402-1405 | the stage is 10 and 65 hundredths of the average, rounded down |
| Progress.DiskStageRange | pkg/controller/virtualmachineimport/virtualmachineimport_controller.go:1397-1405 | the disk stage yields 10..75 |
| Progress.DiskStageMonotone | pkg/controller/virtualmachineimport/virtualmachineimport_controller.go:1397-1405 | more progress of any disk never lowers it |
| Progress.DiskStageComplete | pkg/controller/virtualmachineimport/virtualmachineimport_controller.go:1397-1405 | all disks at 100 give 75 |
| Mappings.IndexByIDAndName | pkg/utils/utils.go:72-99 | both indexes, last item winning |
| Mappings.IndexByIDIsLast | pkg/utils/utils.go:72-99 | the index by ID is the last match in the list |
| Mappings.IndexByNameIsLast | pkg/utils/utils.go:72-99 | the index by name is the last match in the list |
| Mappings.Merge | pkg/mappings/merger.go:10-54 | missing lists as in the source; otherwise one of the specified merges |
| Mappings.CopyPrimary | pkg/mappings/merger.go:22-38 | primary items that can be looked up go out in order, and their IDs and names leave the secondary indexes |
| Mappings.AddByID | pkg/mappings/merger.go:39-47 | in any map order the remaining items by ID, each once; the names left are those none of them has |
| Mappings.AddByName | pkg/mappings/merger.go:48-52 | in any map order only items without an ID are still added |
| MergeLaws.MergeOverrides | pkg/mappings/merger.go:58-102 | first match by ID in the output: the primary's first, else the secondary's last; likewise the last match |
| MergeLaws.MergedIDs | pkg/mappings/merger.go:58-102 | the IDs are exactly the union; the appended part has distinct IDs that the primary has not |
| MergeLaws.MergedNames | pkg/mappings/merger.go:55-103 | the names that can be looked up: the primary's, those of the secondary's last items by a new ID, and those whose last item has no ID |
| MergeLaws.OrderDoesNotMatter | pkg/mappings/merger.go:39-51 | all orders give the same multiset, the same prefix and the same lookups by ID |
| MergeLaws.NameLookupsAgree | pkg/mappings/merger.go:39-51 | all orders give the same first match for a name iff the primary has it or at most one appended item has |
| MergeLaws.MergeAbsorbs | pkg/mappings/merger.go:10-54 | merging the same secondary again changes nothing |
| MergeLaws.MergeWithItself | pkg/mappings/merger.go:10-54 | a list merged with itself loses only items with neither ID nor name |
| MergeLaws.MergeIsAssociative | pkg/mappings/merger.go:10-54 | nested merges agree on every lookup by ID however bracketed, with any list missing |
| StorageMapping.GetMapping | pkg/providers/ovirt/mapper/mapper.go:454-487 | the first disk item with the disk's ID or alias or, if there is none, the first storage item with the domain's ID or name; a missing domain is dereferenced iff it is needed and some storage item has an ID or a name |
| StorageMapping.ScanIsRight | pkg/providers/ovirt/mapper/mapper.go:454-487 | there is one such choice only, and the scan of the other lemmas makes it |
| StorageMapping.GetRequiredStorageClasses | pkg/providers/ovirt/validation/validators/storage-mapping-validator.go:69-112 | the requirement of every disk, in order, grouped by target |
| StorageMapping.ValidateStorageClasses | pkg/providers/ovirt/validation/validators/storage-mapping-validator.go:114-140 | in any map order one failure for each requirement that has one, and no other |
| StorageMapping.ValidateStorageMapping | pkg/providers/ovirt/validation/validators/storage-mapping-validator.go:50-66 | both together, missing mappings being empty |
| StorageMapping.ScanAgreesWithIndexes | pkg/providers/ovirt/mapper/mapper.go:454-487 | scan and indexes choose the same item if the match is settled and, without repeated items, only then |
| StorageMapping.OneMatchIsSettled | pkg/providers/ovirt/validation/validators/storage-mapping-validator.go:74-109 | at most one matching item is enough for that |
| StorageMapping.TwoMatchesDisagree | pkg/providers/ovirt/mapper/mapper.go:455-467 | a match by name before one by ID gives different classes |
| StorageMapping.SameClass | pkg/providers/ovirt/mapper/mapper.go:497-507 | for a settled disk the mapper uses the item the validator checked: its class and its volume mode; it dereferences a missing domain iff the disk has none, no item of its own, and some storage item can be compared |
| StorageMapping.TargetFailuresAreExact | pkg/providers/ovirt/validation/validators/storage-mapping-validator.go:114-151 | a missing target is reported iff the mapper would ask for a class that cannot be found |
| StorageMapping.CheckTellsMapping | pkg/providers/ovirt/validation/validators/storage-mapping-validator.go:142-151 | the disk check fails iff some disk mapping matches, the storage check iff none does |
| OvirtDisks.MapDataVolumes | pkg/providers/ovirt/mapper/mapper.go:234-310 | all DataVolumes iff no attachment is at fault, and otherwise the first fault; with fitting, different IDs one for each attachment, under target and ID, with its disk and exactly its size, read-write for many iff the VM can migrate, read-only iff it cannot and the attachment is, and the class and mode of the item found for the disk |
| OvirtDisks.OneVolumePerDisk | pkg/providers/ovirt/mapper/mapper.go:252-310 | fitting, different IDs: as many DataVolumes as attachments, each that of its attachment |
| OvirtDisks.FittingNamesAreKept | pkg/providers/ovirt/mapper/mapper.go:818-821 | a target name and an ID that fit are joined unchanged |
| OvirtDisks.OneVolumePerDiskOfShortName | pkg/providers/ovirt/mapper/mapper.go:424-433 | with a valid target name of up to 63 characters and different IDs of up to 189 every disk has its own DataVolume |
| OvirtDisks.OneVolumePerDiskIff | pkg/providers/ovirt/mapper/mapper.go:252-310 | as many DataVolumes as disks iff the IDs differ as far as the name has room |
| OvirtDisks.VolumesAreCounted | pkg/providers/ovirt/mapper/mapper.go:252-310 | never more DataVolumes than disks, and as many iff all names differ |
| OvirtDisks.GetDiskAttachmentByID | pkg/providers/ovirt/mapper/mapper.go:809-816 | an attachment with that DataVolume name, or none if there is none |
| OvirtDisks.AttachedAsMapped | pkg/providers/ovirt/mapper/mapper.go:193-225 | a DataVolume is attached through the attachment it was made from |
| OvirtDisks.VMSpec.MapDisk | pkg/providers/ovirt/mapper/mapper.go:193-225 | the volume and a disk with the attachment's bus and boot order are appended under one name, or nil is dereferenced if no attachment has the name |
| OvirtDisks.VolumesDifferIff | pkg/providers/ovirt/mapper/mapper.go:193-204 | with IDs of one length the volume names differ iff the IDs differ as far as there is room |
| OvirtDisks.BlockedMeansMissing | pkg/providers/ovirt/validation/vm-import-validation.go:104-110 | the storage checks block iff some DataVolume would name a class that cannot be found |
| OvirtDisks.WarnedMeansDefault | pkg/providers/ovirt/validation/vm-import-validation.go:104-110 | they warn iff some DataVolume would name no class |
| OvirtDisks.PassedMeansFound | pkg/providers/ovirt/mapper/mapper.go:252-310 | the storage checks pass iff every class in the map of DataVolumes can be found |
| StorageMerges.ScansAgreeIff | pkg/mappings/merger.go:87-99 | all orders of the merge give the scan one item iff the primary has a match or at most one appended item is one |
| StorageMerges.SameVolumes | pkg/providers/ovirt/provider.go:232-234 | merging again then leaves every DataVolume as it was |
| StorageMerges.PassedMeansFoundLater | pkg/providers/ovirt/provider.go:232-234 | the storage checks, run with one merge, pass iff every class in the DataVolumes made with any other can be found |
| Bytes.FormatBytes | pkg/utils/utils.go:200-221 | for every int64: error iff negative; otherwise the number of the largest unit of 1024 bytes, 1024 of these and so on that the size reaches, with Ki, Mi, Gi, Ti, Pi or Ei, if it is a whole one, and the bare bytes if not; reading it back gives the same bytes; no overflow |
| Bytes.SuffixesMean | pkg/utils/utils.go:200-221 | what a number with each of the suffixes is read as |
| Bytes.UnitsBelowInt64 | pkg/utils/utils.go:209-220 | the suffix index stays within the suffixes |
| Numerals.DecimalRoundTrip | pkg/utils/utils.go:207-220 | printing and parsing a number gives it back |
| Numerals.ParsesIff | pkg/providers/ovirt/utils/utils.go:20-22 | what can be read is digits, and nothing else |
| Numerals.ParsedIsPrinted | pkg/providers/ovirt/utils/utils.go:20-22 | what is read is what prints like that, behind zeros |
| Names.LegalCharacters | pkg/utils/utils.go:128-136 | the characters that are kept, and the capitals that are lowered |
| Names.NormalizedShape | pkg/utils/utils.go:122-140 | fails iff there is no alphanumeric character; otherwise has the shape of a label |
| Names.NormalizedKeepsAlphanumerics | pkg/utils/utils.go:122-140 | no letter or digit is lost, and their order is kept |
| Names.StrippingCommutes | pkg/utils/utils.go:135-137 | slicing to the alphanumeric ends and removing illegal characters commute |
| Names.ShortenedShape | pkg/utils/utils.go:169-178 | exactly 63 characters when shortened, and still a label if it had the shape of one |
| Names.ShortenedTells | pkg/utils/utils.go:169-178 | equal shortened values were of equal length and share their first 43 characters |
| Names.LabelsComeOut | pkg/utils/utils.go:143-158 | a label for every name with an alphanumeric character, unchanged iff it is one, idempotent |
| Names.LabelsKeepContent | pkg/utils/utils.go:143-178 | every letter and digit is kept, or 43 characters of a name that is too long |
| Names.NamesKeepContent | pkg/utils/utils.go:102-140 | every letter and digit is kept, or the first 253 characters |
| Names.NamesComeOut | pkg/utils/utils.go:102-120 | a valid subdomain, stable under repetition, iff the name is not cut right after a dash |
| Names.CutNamesExist | pkg/utils/utils.go:116-118 | an input that is cut so |
| Names.NameIsFrom | pkg/providers/ovirt/mapper/mapper.go:424-452 | a name that is asked for goes before the source's and is only shortened; the source's is made valid; there is none iff neither is there, or the source's has no alphanumeric character |
| Names.ResolvedNamesAreLabels | pkg/providers/ovirt/mapper/mapper.go:424-452 | the target's name has at most 63 characters, and is a label if what it is made from has the shape of one |
| Names.EmptyNameIff | pkg/providers/ovirt/mapper/mapper.go:818-821 | the name is empty, its error being dropped, iff neither target nor disk has an alphanumeric character |
| Names.JoinedName | pkg/providers/ovirt/mapper/mapper.go:818-821 | the joined name is only cut |
| Names.NamesAgreeIff | pkg/providers/ovirt/mapper/mapper.go:818-821 | two disks get one name iff their own agree as far as there is room |
| Names.VolumeNameIs | pkg/utils/utils.go:169-178 | what is kept of a DataVolume's name in its volume's: all of 60 characters, the first 57 of up to 96, 56 of more, with the length behind |
| Names.VolumeNamesAgreeIff | pkg/providers/vmware/mapper/mapper.go:321-322 | names of one length give one volume name iff they agree as far as that |
| Names.VolumeNamesOfDifferentLengths | pkg/providers/vmware/mapper/mapper.go:321-322 | names of different lengths do iff the shorter has 60 characters and reads like the longer one shortened |
| Names.VolumesAgreeIff | pkg/providers/ovirt/mapper/mapper.go:193-204 | two disks with IDs of one length share a volume name iff these agree as far as there is room |
| Names.VolumeRoomForIDs | pkg/providers/ovirt/mapper/mapper.go:193-204 | the room for an ID of 36 characters, for every length of the target's name |
| Networks.GetNetworkForNic | pkg/providers/ovirt/mapper/mapper.go:383-401 | pod iff some item for the profile, by the names of network and profile or by its ID, is for the pod or says nothing; Multus of the last one for Multus, with the namespace for SR-IOV |
| Networks.MappedRight | pkg/providers/ovirt/mapper/mapper.go:383-421 | the specification of the other lemmas says the same |
| Networks.MapNetworkType | pkg/providers/ovirt/mapper/mapper.go:403-421 | what one item adds to a network |
| Networks.MapNetworks | pkg/providers/ovirt/mapper/mapper.go:352-369 | one network for each NIC with a profile, in order |
| Networks.ProfiledAre | pkg/providers/ovirt/mapper/mapper.go:312-369 | the NICs mapped are those with a profile, all of them if each has one |
| Networks.ProfiledOfConcat | pkg/providers/ovirt/mapper/mapper.go:312-369 | they are mapped in their order |
| Networks.MapNetworksToTypes | pkg/providers/ovirt/mapper/mapper.go:371-381 | the type of the last typed network of a name |
| Networks.MapNics | pkg/providers/ovirt/mapper/mapper.go:312-350 | one interface for each NIC with a profile, in order, with the binding for the type under its name |
| Networks.MapVMNetworks | pkg/providers/ovirt/mapper/mapper.go:183-187 | networks and interfaces are of equal length and pointwise equal in name; each network is as its items say; unless networks of one name differ, SR-IOV iff Multus and the profile has it, bridge iff Multus and not, masquerade iff pod alone, and nothing iff neither |
| Networks.BindingsFit | pkg/providers/ovirt/mapper/mapper.go:312-381 | every binding fits its network iff networks of one name are of one type |
| Networks.GetPodNetworks | pkg/providers/ovirt/validation/validators/network-mapping-validator.go:173-195 | counts the NICs whose profile is indexed with a pod target |
| Networks.CheckPodNetworks | pkg/providers/ovirt/validation/validators/network-mapping-validator.go:83-89 | one failure iff more than one pod network is counted |
| Networks.CountsByLastItems | pkg/providers/ovirt/validation/validators/network-mapping-validator.go:173-195 | the indexes count a NIC iff the last item with its ID, or the last one named like its profile alone, is for the pod |
| Networks.CountedRightForQualifiedNames | pkg/providers/ovirt/validation/validators/network-mapping-validator.go:206-222 | with names in the required format a NIC is counted as it is mapped iff the last item with its ID is for the pod, or none for it is |
| Networks.UniqueIDsCountRight | pkg/providers/ovirt/validation/validators/network-mapping-validator.go:173-195 | with a mapping by unique IDs that is so iff the profile has an ID, or no item with the empty one is for the pod |
| Networks.PodNetworksAreCounted | pkg/providers/ovirt/validation/validators/network-mapping-validator.go:173-195 | if every NIC is counted right, the count is the number of pod networks the mapper makes |
| Networks.PassedMeansOnePodNetwork | pkg/providers/ovirt/validation/validators/network-mapping-validator.go:83-89 | with a mapping by unique IDs the check passes iff the mapper makes at most one pod network |
| Networks.NamesAreNotCounted | pkg/providers/ovirt/validation/validators/network-mapping-validator.go:185-191 | a mapping by names of the required format is never counted |
| Networks.TwoPodNetworksPass | pkg/providers/ovirt/validation/validators/network-mapping-validator.go:83-89 | two NICs mapped by name to the pod network become two pod networks and are counted as none |
| VmwareDisks.VMSpec.MapDisk | pkg/providers/vmware/mapper/mapper.go:320-352 | the volume appended; the disks sorted, with one more |
| VmwareDisks.VMSpec.MapDisks | pkg/controller/virtualmachineimport/virtualmachineimport_controller.go:1065-1080 | a run of MapDisk calls leaves the specified volumes and disks |
| VmwareDisks.LessIffDiffers | pkg/providers/vmware/mapper/mapper.go:344-350 | the order of names: the first difference decides, and what continues another comes behind it |
| VmwareDisks.SortedIsUnique | pkg/providers/vmware/mapper/mapper.go:344-350 | a sorted list in which a name tells a disk is settled by its contents |
| VmwareDisks.AttachingIsConfluent | pkg/providers/vmware/mapper/mapper.go:320-352 | two orders of the same DataVolumes leave the same disks |
| VmwareDisks.AttachingFromNone | pkg/providers/vmware/mapper/mapper.go:320-352 | from no disks that holds of all DataVolumes, whatever their names |
| VmwareDisks.EveryDiskHasItsVolume | pkg/providers/vmware/mapper/mapper.go:320-352 | every disk has exactly one volume of its name iff the volume names are distinct |
| VmwareDisks.InDeviceOrderIff | pkg/providers/vmware/mapper/mapper.go:344-350 | from no disks, the order of the DataVolumes is kept iff it is that of the names |
| VmwareDisks.HardDiskName | pkg/providers/vmware/mapper/mapper.go:620-623 | what the label of the k-th hard disk makes of its DataVolume's name |
| VmwareDisks.DevicesInOrderIff | pkg/providers/vmware/mapper/mapper.go:344-350 | for every label as target, hard disks are attached in the order of the devices iff there are fewer than ten or the target has at least 51 characters |
| VmwareDisks.HardDiskVolumesDifferIff | pkg/providers/vmware/mapper/mapper.go:321-322 | the volumes of n hard disks are of different names iff the target's name and the digits of n - 1 have at most 51 characters together |
| VmwareDisks.EveryHardDiskHasItsVolume | pkg/providers/vmware/mapper/mapper.go:320-352 | every hard disk has exactly one volume of its name iff that is so |
| CpuPinning.IsCPUPinningExact | pkg/providers/ovirt/utils/utils.go:15-27 | exact iff every CPU set is one number and no two are equal |
| CpuPinning.AtoiReadsItoa | pkg/providers/ovirt/utils/utils.go:20-22 | a printed number is read back, with or without a plus sign, unless it does not fit an int |
| CpuPinning.AtoiReadsNumbers | pkg/providers/ovirt/utils/utils.go:20-22 | a number is digits behind at most one sign that fit an int |
| CpuPinning.RangesAreNoNumbers | pkg/providers/ovirt/utils/utils.go:20-22 | a range or a list of CPUs is none |
| CpuPinning.OneVcpuTwiceIsExact | pkg/providers/ovirt/utils/utils.go:14-27 | one vCPU pinned to two CPUs counts as exact |

## Left out

Assumptions of the state machine, each a condition of the store or of the environment:

- One reconcile of an import at a time, reads see earlier writes, a write that fails is not applied, and
  deleting an object takes effect at once. Stale caches and concurrent imports that share a target VM are
  not modelled.
- At least one mapped disk, no VM with an empty name, only this import creates its DataVolumes, and the
  spec of the import does not change. Others may delete DataVolumes, create, replace and
  delete VMs, delete the import, add finalizers and switch the source.
- Progress that CDI reports lies in 0..100 (anything that does not parse reads as 0).
- Controller.ImportReconciler.CreateVM: what the template and the mapper put into the VM spec, annotations,
  labels and owner references; that each of these steps succeeds or fails is a free choice.
- Controller.ImportReconciler.StartTargetVM: the target VMI's phase and the patch that starts it are free
  choices; the running state of the target VM is not part of the store.
- Provider.SourceProvider.StartVM: every source VM has an ID, and whether a request to start is granted is
  not known; the theorems are about the requests.
- Provider.SourceProvider.StopVM: a source that is stopped but whose finalizer cannot be written ends the
  sound part of a run, because the next reconcile finds it down and never marks it; a stop that fails
  ends the quiet part.

Other parts:

- Messages and times of conditions are carried along, and their texts are not modelled; neither are
  events, metrics, logs and durations.
- Networks.GetNetworkForNic: every vNIC profile has its network; the mapper dereferences it. A missing
  network mapping, which the mapper dereferences too, is stopped by the validator.
- Networks.PassedMeansOnePodNetwork: mappings that use names are outside it, since index and scan differ
  there; `CountedRightForQualifiedNames` says when they do.
- StorageMerges.PassedMeansFoundLater: the classes that can be found are those of the validation; one
  that is deleted later is not noticed.
- Names.ResolveVMName: a template may give the VM another name, and the server one that is generated;
  `OneVolumePerDiskIff` holds for these as well, if they have the shape of a label.
- VmwareDisks.DevicesInOrderIff and the lemmas beside it: disks are labelled "Hard disk" and numbered from
  1 without a gap; `InDeviceOrderIff` and `EveryDiskHasItsVolume` do without that.
- OvirtDisks.MapDataVolumes: URL, secret and config map of the DataVolume source are constants and left
  out; the DataVolumes mapped before a fault are not returned.
- Names.NormalizeLabel and NormalizeName are modelled for ASCII names; other names depend on Unicode
  tables.
- Progress.DisksImportProgress: computed over `real`, without the rounding of floating point.
- VmwareDisks.SortByName is an insertion sort in place of Go's sort; only its contract is used.
- The individual VM, NIC and disk rules, OS tables, guest conversion specs, SR-IOV network checks and the
  check that target networks exist: each is settled by one branch, and their failures are arbitrary
  lists here. Time zones depend on the host's database.
- The VMware mapper's choice of a storage class, which passes over items for the default class and goes on
  to later ones, where oVirt's takes the first match; its networks and the rest of its VM spec.
- The operator's own deployment, generated code and API types are plumbing.
