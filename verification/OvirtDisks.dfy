/** From oVirt disk attachments to DataVolumes, and back when the DataVolumes are attached
    (pkg/providers/ovirt/mapper/mapper.go). */
module OvirtDisks {
  import opened Wrappers
  import opened Mappings
  import opened Validation
  import opened StorageMapping
  import opened Names
  import Bytes

  datatype AccessMode = ReadWriteOnce | ReadOnlyMany | ReadWriteMany

  /** A disk attachment; `size` is the provisioned size of its disk. */
  datatype Attachment = Attachment(
    id: Option<string>,
    readOnly: bool,
    bootable: bool,
    bus: string,
    disk: Option<Disk>,
    size: Bytes.Int64)

  datatype DataVolume = DataVolume(
    name: string,
    diskID: string,
    bytes: nat,
    accessMode: AccessMode,
    storageClassName: Option<string>,
    volumeMode: Option<VolumeMode>)

  /** An attachment without a disk, and a scan that needs a missing storage domain, dereference nil. */
  datatype Mapped = Mapped(dvs: map<string, DataVolume>) | BadSize | NilDereference

  /** What the mapper knows besides the attachments. */
  datatype Plan = Plan(targetVMName: string, migratable: bool, disks: seq<StorageItem>, storages: seq<StorageItem>) {
    function NameOf(a: Attachment): string {
      BuildDataVolumeName(targetVMName, a.id.GetOr(""))
    }

    function AccessModeOf(a: Attachment): AccessMode {
      if migratable then ReadWriteMany else if a.readOnly then ReadOnlyMany else ReadWriteOnce
    }

    /** What goes wrong with an attachment, if anything. */
    function Fault(a: Attachment): Option<Mapped> {
      if a.disk.None? then Some(NilDereference)
      else if a.size < 0 then Some(BadSize)
      else if ScannedChoice(a.disk.value, disks, storages).NilStorageDomain? then Some(NilDereference)
      else None
    }

    /** The DataVolume asks for as many bytes as the disk has. */
    function Volume(a: Attachment): DataVolume
      requires Fault(a).None?
    {
      var choice := ScannedChoice(a.disk.value, disks, storages);
      DataVolume(NameOf(a), a.disk.value.id, a.size, AccessModeOf(a), GetStorageClassForDisk(choice),
                 GetVolumeMode(choice))
    }

    ghost predicate NoFaults(attachments: seq<Attachment>) {
      forall a | a in attachments :: Fault(a).None?
    }

    /** Attachments with the same name replace each other. */
    ghost function Volumes(attachments: seq<Attachment>): map<string, DataVolume>
      requires NoFaults(attachments)
    {
      if attachments == [] then map[]
      else
        var init, last := attachments[..|attachments| - 1], attachments[|attachments| - 1];
        assert attachments == init + [last];
        Volumes(init)[NameOf(last) := Volume(last)]
    }
  }

  /** What the DataVolume of an attachment is to be: of the disk and its size, to be written by many nodes
      if the VM can migrate, only to be read if it cannot and the attachment is read-only, and of the class
      and mode of the item found for the disk. An item with an empty class stands for the default, as
      having no item does. */
  ghost predicate IsVolumeOf(dv: DataVolume, a: Attachment, name: string, migratable: bool, disks: seq<StorageItem>,
                             storages: seq<StorageItem>)
    requires a.disk.Some?
  {
    && dv.name == name && dv.diskID == a.disk.value.id && dv.bytes == a.size
    && (dv.accessMode == ReadWriteMany <==> migratable)
    && (dv.accessMode == ReadOnlyMany <==> !migratable && a.readOnly)
    && (dv.accessMode == ReadWriteOnce <==> !migratable && !a.readOnly)
    && forall choice | Scanned(a.disk.value, disks, storages, choice) ::
         && dv.storageClassName == (if choice.Chosen? && choice.item.target.id.name != ""
                                    then Some(choice.item.target.id.name) else None)
         && dv.volumeMode == if choice.Chosen? then choice.item.target.volumeMode else Some(Filesystem)
  }

  /** There is a disk, its size is not negative, and no missing domain has to be read. */
  ghost predicate IsFine(a: Attachment, disks: seq<StorageItem>, storages: seq<StorageItem>) {
    a.disk.Some? && a.size >= 0 && !Scanned(a.disk.value, disks, storages, NilStorageDomain)
  }

  lemma FineIff(plan: Plan, a: Attachment)
    ensures IsFine(a, plan.disks, plan.storages) <==> plan.Fault(a).None?
    ensures plan.Fault(a).Some? ==>
              plan.Fault(a).value == if a.disk.Some? && a.size < 0 then BadSize else NilDereference
    ensures plan.Fault(a).None? ==>
              IsVolumeOf(plan.Volume(a), a, plan.NameOf(a), plan.migratable, plan.disks, plan.storages)
  {
    if a.disk.Some? {
      ScanIsRight(a.disk.value, plan.disks, plan.storages);
      hide Scanned, ScannedChoice;
    }
  }

  lemma FaultsAre(plan: Plan, attachments: seq<Attachment>)
    ensures plan.NoFaults(attachments) <==> forall a | a in attachments :: IsFine(a, plan.disks, plan.storages)
  {
    forall a | a in attachments
      ensures IsFine(a, plan.disks, plan.storages) <==> plan.Fault(a).None?
    {
      FineIff(plan, a);
    }
  }

  /** Every attachment has its DataVolume, and there are no others. */
  ghost predicate AreVolumesOf(dvs: map<string, DataVolume>, attachments: seq<Attachment>, targetVMName: string,
                               migratable: bool, disks: seq<StorageItem>, storages: seq<StorageItem>)
    requires forall a | a in attachments :: a.id.Some? && a.disk.Some?
  {
    && |dvs| == |attachments|
    && forall a | a in attachments ::
         var name := targetVMName + "-" + a.id.value;
         name in dvs && IsVolumeOf(dvs[name], a, name, migratable, disks, storages)
  }

  lemma VolumesAreRight(plan: Plan, attachments: seq<Attachment>)
    requires Fitting(plan.targetVMName, attachments) && plan.NoFaults(attachments)
    ensures forall a | a in attachments :: a.id.Some? && a.disk.Some?
    ensures AreVolumesOf(plan.Volumes(attachments), attachments, plan.targetVMName, plan.migratable, plan.disks,
                         plan.storages)
  {
    OneVolumePerDisk(plan, attachments);
    forall a | a in attachments
      ensures a.id.Some? && a.disk.Some?
      ensures var name := plan.targetVMName + "-" + a.id.value;
              && name in plan.Volumes(attachments)
              && IsVolumeOf(plan.Volumes(attachments)[name], a, name, plan.migratable, plan.disks, plan.storages)
    {
      FittingNamesAreKept(plan.targetVMName, a.id.value);
      FineIff(plan, a);
    }
  }

  /** Mapping stops at the first attachment at fault. */
  method MapDataVolumes(targetVMName: string, attachments: seq<Attachment>, migratable: bool,
                        diskMappings: Option<seq<StorageItem>>, storageMappings: Option<seq<StorageItem>>)
    returns (r: Mapped)
    ensures r.Mapped? <==>
            forall a | a in attachments :: IsFine(a, diskMappings.GetOr([]), storageMappings.GetOr([]))
    ensures r.Mapped? && Fitting(targetVMName, attachments) ==>
              AreVolumesOf(r.dvs, attachments, targetVMName, migratable, diskMappings.GetOr([]),
                           storageMappings.GetOr([]))
    ensures !r.Mapped? ==>
              exists i | 0 <= i < |attachments| ::
                && (forall a | a in attachments[..i] :: IsFine(a, diskMappings.GetOr([]), storageMappings.GetOr([])))
                && !IsFine(attachments[i], diskMappings.GetOr([]), storageMappings.GetOr([]))
                && r == if attachments[i].disk.Some? && attachments[i].size < 0 then BadSize else NilDereference
    ensures var plan := Plan(targetVMName, migratable, diskMappings.GetOr([]), storageMappings.GetOr([]));
            && (plan.NoFaults(attachments) ==> r == Mapped(plan.Volumes(attachments)))
            && (!plan.NoFaults(attachments) ==>
                  exists i | 0 <= i < |attachments| ::
                    plan.NoFaults(attachments[..i]) && plan.Fault(attachments[i]) == Some(r))
  {
    var plan := Plan(targetVMName, migratable, diskMappings.GetOr([]), storageMappings.GetOr([]));
    var dvs := map[];
    for i := 0 to |attachments|
      invariant plan.NoFaults(attachments[..i]) && dvs == plan.Volumes(attachments[..i])
    {
      var diskAttachment := attachments[i];
      assert diskAttachment in attachments;
      assert attachments[..i + 1] == attachments[..i] + [diskAttachment];
      FaultsAre(plan, attachments[..i]);
      FaultsAre(plan, attachments);
      FineIff(plan, diskAttachment);
      if diskAttachment.disk.None? {
        return NilDereference;
      }
      var disk := diskAttachment.disk.value;
      var size := Bytes.FormatBytes(diskAttachment.size);
      if size.Failure? {
        return BadSize;
      }
      var quantity := Bytes.ReadQuantity(size.value).value;
      var mapping := GetMapping(disk, diskMappings, storageMappings);
      if mapping.NilStorageDomain? {
        return NilDereference;
      }
      var dvName := plan.NameOf(diskAttachment);
      dvs := dvs[dvName := DataVolume(dvName, disk.id, quantity, plan.AccessModeOf(diskAttachment),
                                      GetStorageClassForDisk(mapping), GetVolumeMode(mapping))];
    }
    assert attachments[..|attachments|] == attachments;
    FaultsAre(plan, attachments);
    if Fitting(targetVMName, attachments) {
      VolumesAreRight(plan, attachments);
    }
    return Mapped(dvs);
  }

  // ---------------------------------------------------------------------------------------------
  // Names

  lemma {:induction false} LabelsOfConcat(a: string, b: string)
    requires '.' !in b
    ensures Labels(a + b) == Labels(a)[..|Labels(a)| - 1] + [Labels(a)[|Labels(a)| - 1] + b]
  {
    if a == [] {
      assert a + b == b;
      LabelsWithoutDots(b);
    } else {
      assert (a + b)[1..] == a[1..] + b;
      LabelsOfConcat(a[1..], b);
      var rest := Labels(a[1..]);
      if a[0] != '.' && |rest| == 1 {
        assert [a[0]] + (rest[0] + b) == [a[0]] + rest[0] + b;
      }
    }
  }

  /** A target name and an attachment ID that fit together are joined unchanged. */
  lemma FittingNamesAreKept(targetVMName: string, id: string)
    requires IsSubdomain(targetVMName) && LabelShape(id) && |targetVMName| + 1 + |id| <= SUBDOMAIN_MAX_LENGTH
    ensures BuildDataVolumeName(targetVMName, id) == targetVMName + "-" + id
  {
    var tail := "-" + id;
    assert targetVMName + "-" + id == targetVMName + tail;
    LabelsOfConcat(targetVMName, tail);
    var labels := Labels(targetVMName);
    forall l | l in Labels(targetVMName + tail)
      ensures LabelShape(l)
    {
      assert labels[|labels| - 1] in labels;
      assert forall k | 0 <= k < |labels| - 1 :: labels[k] in labels;
    }
  }

  /** An ID that can be appended to the target name without normalising or cutting anything. */
  ghost predicate Fits(targetVMName: string, a: Attachment) {
    a.id.Some? && LabelShape(a.id.value) && |targetVMName| + 1 + |a.id.value| <= SUBDOMAIN_MAX_LENGTH
  }

  ghost predicate Fitting(targetVMName: string, attachments: seq<Attachment>) {
    && IsSubdomain(targetVMName)
    && (forall a | a in attachments :: Fits(targetVMName, a))
    && forall i, j | 0 <= i < j < |attachments| :: attachments[i].id != attachments[j].id
  }

  lemma DifferentNames(plan: Plan, a: Attachment, b: Attachment)
    requires IsSubdomain(plan.targetVMName) && Fits(plan.targetVMName, a) && Fits(plan.targetVMName, b) && a.id != b.id
    ensures plan.NameOf(a) != plan.NameOf(b)
  {
    FittingNamesAreKept(plan.targetVMName, a.id.value);
    FittingNamesAreKept(plan.targetVMName, b.id.value);
    var n := |plan.targetVMName + "-"|;
    assert (plan.targetVMName + "-" + a.id.value)[n..] == a.id.value;
    assert (plan.targetVMName + "-" + b.id.value)[n..] == b.id.value;
  }

  lemma {:induction false} NamesOfVolumes(plan: Plan, attachments: seq<Attachment>)
    requires plan.NoFaults(attachments)
    ensures forall name :: name in plan.Volumes(attachments) <==> exists a :: a in attachments && plan.NameOf(a) == name
  {
    if attachments != [] {
      var init, last := attachments[..|attachments| - 1], attachments[|attachments| - 1];
      assert attachments == init + [last];
      assert forall a :: a in attachments <==> a in init || a == last;
      NamesOfVolumes(plan, init);
    }
  }

  /** Attachments with different, fitting IDs get a DataVolume each: none is lost, and none is made for
      anything else. */
  lemma {:induction false} OneVolumePerDisk(plan: Plan, attachments: seq<Attachment>)
    requires Fitting(plan.targetVMName, attachments) && plan.NoFaults(attachments)
    ensures |plan.Volumes(attachments)| == |attachments|
    ensures forall a | a in attachments ::
              plan.NameOf(a) in plan.Volumes(attachments) && plan.Volumes(attachments)[plan.NameOf(a)] == plan.Volume(a)
  {
    if attachments != [] {
      var init, last := attachments[..|attachments| - 1], attachments[|attachments| - 1];
      hide Fitting, BuildDataVolumeName, ScannedChoice;
      assert attachments == init + [last];
      assert forall a :: a in attachments <==> a in init || a == last;
      FittingWithoutLast(plan, init, last);
      OneVolumePerDisk(plan, init);
      NamesOfVolumes(plan, init);
      assert plan.Volumes(attachments) == plan.Volumes(init)[plan.NameOf(last) := plan.Volume(last)];
    }
  }

  lemma FittingWithoutLast(plan: Plan, init: seq<Attachment>, last: Attachment)
    requires Fitting(plan.targetVMName, init + [last]) && plan.NoFaults(init + [last])
    ensures Fitting(plan.targetVMName, init) && plan.NoFaults(init) && plan.Fault(last).None?
    ensures forall a | a in init :: plan.NameOf(a) != plan.NameOf(last)
  {
    var all := init + [last];
    assert all[|init|] == last;
    assert last in all;
    assert forall i | 0 <= i < |init| :: all[i] == init[i] && init[i] in all;
    forall a | a in init
      ensures plan.NameOf(a) != plan.NameOf(last)
    {
      DifferentNames(plan, a, last);
    }
  }

  /** A target name no longer than a label, as one that has been resolved is, leaves room for every ID of
      up to 189 characters. */
  lemma ShortNamesFit(plan: Plan, attachments: seq<Attachment>)
    requires IsSubdomain(plan.targetVMName) && |plan.targetVMName| <= LABEL_VALUE_MAX_LENGTH
    requires forall a | a in attachments :: a.id.Some? && LabelShape(a.id.value) && |a.id.value| <= 189
    requires forall i, j | 0 <= i < j < |attachments| :: attachments[i].id != attachments[j].id
    ensures Fitting(plan.targetVMName, attachments)
  {}

  /** So with such a target every disk of different ID gets a DataVolume of its own. */
  lemma OneVolumePerDiskOfShortName(plan: Plan, attachments: seq<Attachment>)
    requires IsSubdomain(plan.targetVMName) && |plan.targetVMName| <= LABEL_VALUE_MAX_LENGTH
    requires forall a | a in attachments :: a.id.Some? && LabelShape(a.id.value) && |a.id.value| <= 189
    requires forall i, j | 0 <= i < j < |attachments| :: attachments[i].id != attachments[j].id
    requires plan.NoFaults(attachments)
    ensures |plan.Volumes(attachments)| == |attachments|
    ensures forall a | a in attachments ::
              && plan.NameOf(a) in plan.Volumes(attachments)
              && plan.Volumes(attachments)[plan.NameOf(a)] == plan.Volume(a)
  {
    ShortNamesFit(plan, attachments);
    OneVolumePerDisk(plan, attachments);
  }

  ghost predicate DistinctNames(plan: Plan, attachments: seq<Attachment>) {
    forall i, j | 0 <= i < j < |attachments| :: plan.NameOf(attachments[i]) != plan.NameOf(attachments[j])
  }

  lemma DistinctNamesOfOneMore(plan: Plan, init: seq<Attachment>, last: Attachment)
    ensures DistinctNames(plan, init + [last])
            <==> DistinctNames(plan, init) && !exists a :: a in init && plan.NameOf(a) == plan.NameOf(last)
  {
    hide BuildDataVolumeName;
    var all := init + [last];
    assert forall i | 0 <= i < |init| :: all[i] == init[i] && init[i] in init;
    assert all[|init|] == last;
  }

  lemma {:induction false} VolumesAreCounted(plan: Plan, attachments: seq<Attachment>)
    requires plan.NoFaults(attachments)
    ensures |plan.Volumes(attachments)| <= |attachments|
    ensures |plan.Volumes(attachments)| == |attachments| <==> DistinctNames(plan, attachments)
  {
    if attachments != [] {
      hide BuildDataVolumeName, ScannedChoice;
      var init, last := attachments[..|attachments| - 1], attachments[|attachments| - 1];
      assert attachments == init + [last];
      VolumesAreCounted(plan, init);
      NamesOfVolumes(plan, init);
      var name := plan.NameOf(last);
      DistinctNamesOfOneMore(plan, init, last);
      hide DistinctNames;
      assert |plan.Volumes(attachments)| == |plan.Volumes(init)| + if name in plan.Volumes(init) then 0 else 1;
    }
  }

  /** Whatever the length of the target's name: every disk gets a DataVolume of its own exactly when the
      IDs differ as far as the name has room for them. */
  lemma OneVolumePerDiskIff(plan: Plan, attachments: seq<Attachment>)
    requires LabelShape(plan.targetVMName) && plan.NoFaults(attachments)
    requires forall a | a in attachments :: a.id.Some? && LabelShape(a.id.value)
    ensures |plan.Volumes(attachments)| == |attachments| <==>
            forall i, j | 0 <= i < j < |attachments| ::
              Cut(attachments[i].id.value, Room(plan.targetVMName))
              != Cut(attachments[j].id.value, Room(plan.targetVMName))
  {
    VolumesAreCounted(plan, attachments);
    hide LabelShape, BuildDataVolumeName, Cut, Room;
    forall i, j | 0 <= i < j < |attachments|
      ensures plan.NameOf(attachments[i]) != plan.NameOf(attachments[j]) <==>
              Cut(attachments[i].id.value, Room(plan.targetVMName))
              != Cut(attachments[j].id.value, Room(plan.targetVMName))
    {
      NamesAgreeIff(plan.targetVMName, attachments[i].id.value, attachments[j].id.value);
    }
  }

  // ---------------------------------------------------------------------------------------------
  // Attaching

  method GetDiskAttachmentByID(id: string, attachments: seq<Attachment>, targetVMName: string)
    returns (a: Option<Attachment>)
    ensures a.None? <==>
            forall o | o in attachments && o.id.Some? :: BuildDataVolumeName(targetVMName, o.id.value) != id
    ensures a.Some? ==>
              a.value in attachments && a.value.id.Some? && BuildDataVolumeName(targetVMName, a.value.id.value) == id
  {
    for i := 0 to |attachments|
      invariant forall j | 0 <= j < i && attachments[j].id.Some? ::
                  BuildDataVolumeName(targetVMName, attachments[j].id.value) != id
    {
      var o := attachments[i];
      if o.id.Some? && BuildDataVolumeName(targetVMName, o.id.value) == id {
        return Some(o);
      }
    }
    return None;
  }

  /** With different, fitting IDs a mapped DataVolume is attached through the attachment it was made
      from. */
  lemma AttachedAsMapped(plan: Plan, attachments: seq<Attachment>, name: string, found: Attachment)
    requires Fitting(plan.targetVMName, attachments) && plan.NoFaults(attachments)
    requires name in plan.Volumes(attachments)
    requires found in attachments && BuildDataVolumeName(plan.targetVMName, found.id.value) == name
    ensures plan.Volumes(attachments)[name] == plan.Volume(found)
  {
    OneVolumePerDisk(plan, attachments);
    NamesOfVolumes(plan, attachments);
  }

  const DISKINTERFACE_VIRTIO_SCSI := "virtio_scsi"
  const DISKINTERFACE_VIRTIO := "virtio"

  datatype VMVolume = VMVolume(name: string, dataVolumeName: string)

  datatype VMDisk = VMDisk(name: string, bus: string, bootOrder: Option<nat>)

  /** A disk has the bus of its attachment, with VirtIO in place of VirtIO-SCSI. */
  function BusOf(a: Attachment): string {
    if a.bus == DISKINTERFACE_VIRTIO_SCSI then DISKINTERFACE_VIRTIO else a.bus
  }

  class VMSpec {
    var volumes: seq<VMVolume>
    var disks: seq<VMDisk>

    /** A DataVolume that no attachment was mapped to dereferences nil; otherwise its volume and its disk
        are appended under one name. */
    method MapDisk(dv: DVName, attachments: seq<Attachment>, targetVMName: string) returns (ok: bool)
      modifies this
      ensures ok <==> exists a | a in attachments && a.id.Some? :: BuildDataVolumeName(targetVMName, a.id.value) == dv
      ensures ok ==> volumes == old(volumes) + [VMVolume(VolumeName(dv), dv)]
      ensures ok ==>
                exists a | a in attachments && a.id.Some? && BuildDataVolumeName(targetVMName, a.id.value) == dv ::
                  disks == old(disks) + [VMDisk(VolumeName(dv), if a.bus == "virtio_scsi" then "virtio" else a.bus,
                                                if a.bootable then Some(1) else None)]
      ensures !ok ==> volumes == old(volumes) && disks == old(disks)
    {
      hide BuildDataVolumeName, VolumeName;
      var diskAttachment := GetDiskAttachmentByID(dv, attachments, targetVMName);
      if diskAttachment.None? {
        return false;
      }
      var a := diskAttachment.value;
      var name := VolumeName(dv);
      volumes := volumes + [VMVolume(name, dv)];
      disks := disks + [VMDisk(name, BusOf(a), if a.bootable then Some(1) else None)];
      return true;
    }
  }

  /** With IDs of one length, the volumes of the disks are of different names exactly when the IDs differ
      as far as there is room for them. */
  lemma VolumesDifferIff(plan: Plan, attachments: seq<Attachment>, length: nat)
    requires IsLabel(plan.targetVMName) && length <= 189
    requires forall a | a in attachments :: a.id.Some? && LabelShape(a.id.value) && |a.id.value| == length
    ensures (forall i, j | 0 <= i < j < |attachments| ::
               VolumeName(plan.NameOf(attachments[i])) != VolumeName(plan.NameOf(attachments[j])))
            <==> forall i, j | 0 <= i < j < |attachments| ::
                   Cut(attachments[i].id.value, VolumeRoom(plan.targetVMName, length))
                   != Cut(attachments[j].id.value, VolumeRoom(plan.targetVMName, length))
  {
    hide IsLabel, LabelShape, BuildDataVolumeName, VolumeName, Cut, VolumeRoom;
    forall i, j | 0 <= i < j < |attachments|
      ensures VolumeName(plan.NameOf(attachments[i])) != VolumeName(plan.NameOf(attachments[j])) <==>
              Cut(attachments[i].id.value, VolumeRoom(plan.targetVMName, length))
              != Cut(attachments[j].id.value, VolumeRoom(plan.targetVMName, length))
    {
      VolumesAgreeIff(plan.targetVMName, attachments[i].id.value, attachments[j].id.value);
    }
  }

  // ---------------------------------------------------------------------------------------------
  // Validated, then mapped

  /** The actions the import's checks have for storage. */
  predicate StorageActions(actions: Actions) {
    && "disk.target" in actions && actions["disk.target"] == Action.Block
    && "storage.target" in actions && actions["storage.target"] == Action.Block
    && "storage.target.default" in actions && actions["storage.target.default"] == Warn
  }

  function DisksOf(attachments: seq<Attachment>): seq<Option<Disk>> {
    if attachments == [] then []
    else DisksOf(attachments[..|attachments| - 1]) + [attachments[|attachments| - 1].disk]
  }

  lemma {:induction false} DisksOfMeans(attachments: seq<Attachment>)
    ensures forall d :: d in DisksOf(attachments) <==> exists a :: a in attachments && a.disk == d
  {
    if attachments != [] {
      var init, last := attachments[..|attachments| - 1], attachments[|attachments| - 1];
      assert attachments == init + [last];
      assert forall a :: a in attachments <==> a in init || a == last;
      DisksOfMeans(init);
    }
  }

  lemma {:induction false} FailuresAreKnown(rs: seq<Requirement>, targets: set<ObjectIdentifier>, errors: FindErrors)
    ensures forall f | f in FailuresOf(rs, targets, errors) ::
              (IsTargetFailure(f) || f.id == STORAGE_TARGET_DEFAULT_CLASS) && f.message != ""
  {
    if rs != [] {
      FailuresAreKnown(rs[..|rs| - 1], targets, errors);
    }
  }

  /** What the validator's storage checks return for the attachments. */
  ghost predicate Validated(plan: Plan, attachments: seq<Attachment>, errors: FindErrors, failures: seq<CheckFailure>) {
    var rs := Requirements(DisksOf(attachments), plan.disks, plan.storages);
    multiset(failures) == FailuresOf(rs, Targets(rs), errors)
  }

  ghost predicate AllSettled(plan: Plan, attachments: seq<Attachment>) {
    forall a | a in attachments && a.disk.Some? :: DiskIsSettled(a.disk.value, plan.disks, plan.storages)
  }

  lemma BlockedMeansMissing(plan: Plan, attachments: seq<Attachment>, actions: Actions, errors: FindErrors,
                            failures: seq<CheckFailure>)
    requires StorageActions(actions) && Validated(plan, attachments, errors, failures)
    requires plan.NoFaults(attachments) && AllSettled(plan, attachments)
    ensures Reported(actions, failures, Action.Block)
            <==> exists a | a in attachments ::
                   plan.Volume(a).storageClassName.Some? && plan.Volume(a).storageClassName.value in errors
  {
    hide FailuresOf, Requirements, ScannedChoice, DiskIsSettled;
    var attached := DisksOf(attachments);
    DisksOfMeans(attachments);
    hide DisksOf;
    forall d | d in attached && d.Some?
      ensures DiskIsSettled(d.value, plan.disks, plan.storages)
      ensures !ScannedChoice(d.value, plan.disks, plan.storages).NilStorageDomain?
    {
      var a :| a in attachments && a.disk == d;
      assert plan.Fault(a).None?;
    }
    TargetFailuresAreExact(attached, plan.disks, plan.storages, errors);
    var rs := Requirements(attached, plan.disks, plan.storages);
    FailuresAreKnown(rs, Targets(rs), errors);
    assert forall f :: f in failures <==> f in multiset(failures);
    MissingShows(plan, attachments, attached, errors);
  }

  lemma MissingShows(plan: Plan, attachments: seq<Attachment>, attached: seq<Option<Disk>>, errors: FindErrors)
    requires plan.NoFaults(attachments)
    requires forall d :: d in attached <==> exists a :: a in attachments && a.disk == d
    ensures (exists d | d in attached && d.Some? :: ClassIsMissing(d.value, plan.disks, plan.storages, errors))
            <==> exists a | a in attachments ::
                   plan.Volume(a).storageClassName.Some? && plan.Volume(a).storageClassName.value in errors
  {
    hide ScannedChoice;
    forall a | a in attachments
      ensures a.disk.Some? && a.disk in attached
      ensures ClassIsMissing(a.disk.value, plan.disks, plan.storages, errors)
              <==> plan.Volume(a).storageClassName.Some? && plan.Volume(a).storageClassName.value in errors
    {
      assert plan.Fault(a).None?;
    }
  }

  /** They warn exactly when some DataVolume names no class, and so gets the default one. */
  lemma WarnedMeansDefault(plan: Plan, attachments: seq<Attachment>, actions: Actions, errors: FindErrors,
                           failures: seq<CheckFailure>)
    requires StorageActions(actions) && Validated(plan, attachments, errors, failures)
    requires plan.NoFaults(attachments) && AllSettled(plan, attachments)
    ensures Reported(actions, failures, Warn) <==>
            exists a | a in attachments :: plan.Volume(a).storageClassName.None?
  {
    hide FailuresOf, Requirements, ScannedChoice, DiskIsSettled, RequirementOf;
    var attached := DisksOf(attachments);
    DisksOfMeans(attachments);
    var rs := Requirements(attached, plan.disks, plan.storages);
    FailuresAreKnown(rs, Targets(rs), errors);
    DefaultsComeFromRequirements(rs, Targets(rs), errors);
    RequirementsMeans(attached, plan.disks, plan.storages);
    assert forall f :: f in failures <==> f in multiset(failures);
    hide DisksOf;
    forall a | a in attachments
      ensures a.disk.Some? && a.disk in attached
      ensures RequirementOf(a.disk.value, plan.disks, plan.storages) in rs
      ensures plan.Volume(a).storageClassName.None? <==>
              RequirementOf(a.disk.value, plan.disks, plan.storages).target.name == ""
    {
      assert plan.Fault(a).None?;
      SameClass(a.disk.value, plan.disks, plan.storages);
    }
  }

  /** The storage checks let settled disks through exactly when every class their DataVolumes name can
      be found. */
  lemma PassedMeansFound(plan: Plan, attachments: seq<Attachment>, actions: Actions, errors: FindErrors,
                         failures: seq<CheckFailure>)
    requires StorageActions(actions) && Validated(plan, attachments, errors, failures)
    requires plan.NoFaults(attachments) && AllSettled(plan, attachments) && Fitting(plan.targetVMName, attachments)
    ensures !Reported(actions, failures, Action.Block)
            <==> forall name | name in plan.Volumes(attachments) ::
                   var wanted := plan.Volumes(attachments)[name].storageClassName;
                   wanted.Some? ==> wanted.value !in errors
  {
    BlockedMeansMissing(plan, attachments, actions, errors, failures);
    OneVolumePerDisk(plan, attachments);
    NamesOfVolumes(plan, attachments);
    hide Reported, AllSettled, Validated;
  }
}
