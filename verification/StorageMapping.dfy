/** Which storage class a disk gets: the validator's indexed choice
    (storage-mapping-validator.go) and the mapper's scan (pkg/providers/ovirt/mapper/mapper.go). */
module StorageMapping {
  import opened Wrappers
  import opened Mappings
  import opened Validation

  /** The default class is forced with the empty name. */
  const DEFAULT_STORAGE_CLASS_TARGET_NAME := ""

  const DISK_TARGET_ID := "disk.target"
  const STORAGE_TARGET_ID := "storage.target"
  const STORAGE_TARGET_DEFAULT_CLASS := "storage.target.default"

  /** A target as the validator's map keys it: the namespace is a reference and compared as one. */
  datatype ObjectIdentifier = ObjectIdentifier(name: string, namespace: Option<int>)

  datatype VolumeMode = Filesystem | Block

  datatype StorageTarget = StorageTarget(id: ObjectIdentifier, volumeMode: Option<VolumeMode>)

  type StorageItem = Item<StorageTarget>

  datatype StorageDomain = StorageDomain(id: string, name: string)

  /** A source disk; attributes the source leaves out read as empty. */
  datatype Disk = Disk(id: string, alias: string, domain: Option<StorageDomain>)

  // ---------------------------------------------------------------------------------------------
  // The mapper's scan

  predicate Matches(item: StorageItem, id: string, name: string) {
    item.source.id == Some(id) || item.source.name == Some(name)
  }

  function FirstMatch(items: seq<StorageItem>, id: string, name: string): Option<StorageItem> {
    if items == [] then None
    else if Matches(items[0], id, name) then Some(items[0])
    else FirstMatch(items[1..], id, name)
  }

  /** The scan reads a missing storage domain as soon as an item has something to compare it with. */
  datatype Choice = Chosen(item: StorageItem) | NoItem | NilStorageDomain

  predicate Comparable(item: StorageItem) {
    item.source.id.Some? || item.source.name.Some?
  }

  function AsChoice(item: Option<StorageItem>): Choice {
    if item.Some? then Chosen(item.value) else NoItem
  }

  function ScannedChoice(disk: Disk, disks: seq<StorageItem>, storages: seq<StorageItem>): Choice {
    var own := FirstMatch(disks, disk.id, disk.alias);
    if own.Some? then Chosen(own.value)
    else if disk.domain.Some? then AsChoice(FirstMatch(storages, disk.domain.value.id, disk.domain.value.name))
    else if exists item | item in storages :: Comparable(item) then NilStorageDomain
    else NoItem
  }

  /** An item for a disk or a storage domain of that ID or name. */
  ghost predicate IsItemFor(item: StorageItem, id: string, name: string) {
    item.source.id == Some(id) || item.source.name == Some(name)
  }

  /** The first item of a list that is, if there is one. */
  ghost predicate IsFirstFor(items: seq<StorageItem>, item: StorageItem, id: string, name: string) {
    exists j | 0 <= j < |items| ::
      items[j] == item && IsItemFor(item, id, name) && forall i | 0 <= i < j :: !IsItemFor(items[i], id, name)
  }

  ghost predicate NoneFor(items: seq<StorageItem>, id: string, name: string) {
    forall item | item in items :: !IsItemFor(item, id, name)
  }

  /** What the scan is to find: the first item for the disk or, if there is none, the first for its storage
      domain. A domain that is missing is read if some storage item can be compared with one. */
  ghost predicate Scanned(disk: Disk, disks: seq<StorageItem>, storages: seq<StorageItem>, choice: Choice) {
    if !NoneFor(disks, disk.id, disk.alias) then
      choice.Chosen? && IsFirstFor(disks, choice.item, disk.id, disk.alias)
    else if disk.domain.None? then
      choice == if exists item | item in storages :: item.source.id.Some? || item.source.name.Some?
                then NilStorageDomain else NoItem
    else if NoneFor(storages, disk.domain.value.id, disk.domain.value.name) then
      choice == NoItem
    else
      choice.Chosen? && IsFirstFor(storages, choice.item, disk.domain.value.id, disk.domain.value.name)
  }

  lemma {:induction false} FirstIsFirst(items: seq<StorageItem>, id: string, name: string)
    ensures FirstMatch(items, id, name).None? <==> NoneFor(items, id, name)
    ensures FirstMatch(items, id, name).Some? ==> IsFirstFor(items, FirstMatch(items, id, name).value, id, name)
  {
    if items != [] && !Matches(items[0], id, name) {
      FirstIsFirst(items[1..], id, name);
      assert forall k | 1 <= k < |items| :: items[k] == items[1..][k - 1];
      if FirstMatch(items, id, name).Some? {
        var item := FirstMatch(items, id, name).value;
        var j :| 0 <= j < |items| - 1 && items[1..][j] == item && IsItemFor(item, id, name)
                 && forall i | 0 <= i < j :: !IsItemFor(items[1..][i], id, name);
        assert items[j + 1] == item && forall i | 0 <= i < j + 1 :: !IsItemFor(items[i], id, name);
      }
    } else if items != [] {
      assert items[0] in items && IsFirstFor(items, items[0], id, name);
    }
  }

  /** There is one such choice only, and the scan makes it. */
  lemma ScanIsRight(disk: Disk, disks: seq<StorageItem>, storages: seq<StorageItem>)
    ensures forall choice :: Scanned(disk, disks, storages, choice) <==> choice == ScannedChoice(disk, disks, storages)
  {
    FirstIsFirst(disks, disk.id, disk.alias);
    if disk.domain.Some? {
      FirstIsFirst(storages, disk.domain.value.id, disk.domain.value.name);
    }
    assert forall item :: Comparable(item) <==> item.source.id.Some? || item.source.name.Some?;
    forall choice | Scanned(disk, disks, storages, choice)
      ensures choice == ScannedChoice(disk, disks, storages)
    {
    }
  }

  lemma {:induction false} FirstMatchAfter(items: seq<StorageItem>, i: nat, id: string, name: string)
    requires i < |items| && forall k | 0 <= k < i :: !Matches(items[k], id, name)
    ensures Matches(items[i], id, name) ==> FirstMatch(items, id, name) == Some(items[i])
    ensures i == |items| - 1 && !Matches(items[i], id, name) ==> FirstMatch(items, id, name) == None
  {
    if i > 0 {
      FirstMatchAfter(items[1..], i - 1, id, name);
    } else if !Matches(items[0], id, name) && |items| == 1 {
      assert items[1..] == [];
    }
  }

  method GetMapping(disk: Disk, diskMappings: Option<seq<StorageItem>>, storageMappings: Option<seq<StorageItem>>)
    returns (choice: Choice)
    ensures Scanned(disk, diskMappings.GetOr([]), storageMappings.GetOr([]), choice)
    ensures choice == ScannedChoice(disk, diskMappings.GetOr([]), storageMappings.GetOr([]))
  {
    ScanIsRight(disk, diskMappings.GetOr([]), storageMappings.GetOr([]));
    hide Scanned;
    if diskMappings.Some? {
      var items := diskMappings.value;
      for i := 0 to |items|
        invariant forall k | 0 <= k < i :: !Matches(items[k], disk.id, disk.alias)
        invariant i == |items| ==> FirstMatch(items, disk.id, disk.alias) == None
      {
        FirstMatchAfter(items, i, disk.id, disk.alias);
        var source := items[i].source;
        if source.id.Some? && disk.id == source.id.value {
          return Chosen(items[i]);
        }
        if source.name.Some? && disk.alias == source.name.value {
          return Chosen(items[i]);
        }
      }
    }
    if storageMappings.Some? {
      var items := storageMappings.value;
      var sd := disk.domain;
      for i := 0 to |items|
        invariant sd.Some? ==> forall k | 0 <= k < i :: !Matches(items[k], sd.value.id, sd.value.name)
        invariant sd.Some? && i == |items| ==> FirstMatch(items, sd.value.id, sd.value.name) == None
        invariant sd.None? ==> forall k | 0 <= k < i :: !Comparable(items[k])
      {
        if sd.Some? {
          FirstMatchAfter(items, i, sd.value.id, sd.value.name);
        }
        assert items[i] in items;
        var source := items[i].source;
        if source.id.Some? {
          if sd.None? {
            return NilStorageDomain;
          }
          if sd.value.id == source.id.value {
            return Chosen(items[i]);
          }
        }
        if source.name.Some? {
          if sd.None? {
            return NilStorageDomain;
          }
          if sd.value.name == source.name.value {
            return Chosen(items[i]);
          }
        }
      }
    }
    return NoItem;
  }

  function GetVolumeMode(choice: Choice): Option<VolumeMode> {
    if choice.Chosen? then choice.item.target.volumeMode else Some(Filesystem)
  }

  /** None stands for the cluster's default class. */
  function GetStorageClassForDisk(choice: Choice): Option<string> {
    if choice.Chosen? && choice.item.target.id.name != DEFAULT_STORAGE_CLASS_TARGET_NAME
    then Some(choice.item.target.id.name)
    else None
  }

  // ---------------------------------------------------------------------------------------------
  // The validator's indexes

  function Indexed(items: seq<StorageItem>, id: string, name: string): Option<StorageItem> {
    var byID, byName := IndexByID(items), IndexByName(items);
    if id in byID then Some(byID[id]) else if name in byName then Some(byName[name]) else None
  }

  datatype SourceType = DiskSource | StorageDomainSource

  datatype MappingSource = MappingSource(id: Option<string>, name: Option<string>, kind: SourceType)

  /** A storage class a disk needs, and what asked for it. */
  datatype Requirement = Requirement(target: ObjectIdentifier, source: MappingSource)

  function RequirementOf(disk: Disk, disks: seq<StorageItem>, storages: seq<StorageItem>): Requirement {
    var own := Indexed(disks, disk.id, disk.alias);
    if own.Some? then
      Requirement(own.value.target.id, MappingSource(own.value.source.id, own.value.source.name, DiskSource))
    else
      var domain :=
        if disk.domain.Some? then Indexed(storages, disk.domain.value.id, disk.domain.value.name) else None;
      if domain.Some? then
        Requirement(domain.value.target.id,
                    MappingSource(domain.value.source.id, domain.value.source.name, StorageDomainSource))
      else
        Requirement(ObjectIdentifier(DEFAULT_STORAGE_CLASS_TARGET_NAME, None),
                    MappingSource(Some(disk.id), Some(disk.alias), DiskSource))
  }

  /** The requirements of the attachments that have a disk, in order. */
  function Requirements(attached: seq<Option<Disk>>, disks: seq<StorageItem>,
                        storages: seq<StorageItem>): seq<Requirement>
  {
    if attached == [] then []
    else
      var last := attached[|attached| - 1];
      Requirements(attached[..|attached| - 1], disks, storages)
      + if last.Some? then [RequirementOf(last.value, disks, storages)] else []
  }

  function SourcesOf(rs: seq<Requirement>, target: ObjectIdentifier): seq<MappingSource> {
    if rs == [] then []
    else
      var r := rs[|rs| - 1];
      SourcesOf(rs[..|rs| - 1], target) + if r.target == target then [r.source] else []
  }

  /** A map that groups the requirements by target. */
  ghost predicate Groups(required: map<ObjectIdentifier, seq<MappingSource>>, rs: seq<Requirement>) {
    && required.Keys == (set r | r in rs :: r.target)
    && forall target | target in required :: required[target] == SourcesOf(rs, target)
  }

  function Add(required: map<ObjectIdentifier, seq<MappingSource>>,
               r: Requirement): map<ObjectIdentifier, seq<MappingSource>>
  {
    required[r.target := (if r.target in required then required[r.target] else []) + [r.source]]
  }

  lemma GroupsAfter(required: map<ObjectIdentifier, seq<MappingSource>>, rs: seq<Requirement>, r: Requirement)
    requires Groups(required, rs)
    ensures Groups(Add(required, r), rs + [r])
  {
    var all := rs + [r];
    assert all[..|all| - 1] == rs;
    assert forall o :: o in all <==> o in rs || o == r;
    if r.target !in required {
      NoSources(rs, r.target);
    }
  }

  lemma {:induction false} NoSources(rs: seq<Requirement>, target: ObjectIdentifier)
    requires forall r | r in rs :: r.target != target
    ensures SourcesOf(rs, target) == []
  {
    if rs != [] {
      assert rs == rs[..|rs| - 1] + [rs[|rs| - 1]];
      NoSources(rs[..|rs| - 1], target);
    }
  }

  method GetRequiredStorageClasses(attached: seq<Option<Disk>>, disks: seq<StorageItem>, storages: seq<StorageItem>)
    returns (required: map<ObjectIdentifier, seq<MappingSource>>)
    ensures Groups(required, Requirements(attached, disks, storages))
  {
    var mapDiskByID, mapDiskByName := IndexByIDAndName(disks);
    var mapDomainByID, mapDomainByName := IndexByIDAndName(storages);
    required := map[];
    for i := 0 to |attached|
      invariant Groups(required, Requirements(attached[..i], disks, storages))
    {
      hide Groups, IndexByID, IndexByName;
      assert attached[..i + 1][..i] == attached[..i];
      if attached[i].None? {
        assert Requirements(attached[..i + 1], disks, storages) == Requirements(attached[..i], disks, storages);
        continue;
      }
      var disk := attached[i].value;
      var r;
      if disk.id in mapDiskByID {
        var mapping := mapDiskByID[disk.id];
        r := Requirement(mapping.target.id, MappingSource(mapping.source.id, mapping.source.name, DiskSource));
      } else if disk.alias in mapDiskByName {
        var mapping := mapDiskByName[disk.alias];
        r := Requirement(mapping.target.id, MappingSource(mapping.source.id, mapping.source.name, DiskSource));
      } else if disk.domain.Some? && disk.domain.value.id in mapDomainByID {
        var mapping := mapDomainByID[disk.domain.value.id];
        r := Requirement(mapping.target.id, MappingSource(mapping.source.id, mapping.source.name, StorageDomainSource));
      } else if disk.domain.Some? && disk.domain.value.name in mapDomainByName {
        var mapping := mapDomainByName[disk.domain.value.name];
        r := Requirement(mapping.target.id, MappingSource(mapping.source.id, mapping.source.name, StorageDomainSource));
      } else {
        r := Requirement(ObjectIdentifier(DEFAULT_STORAGE_CLASS_TARGET_NAME, None),
                         MappingSource(Some(disk.id), Some(disk.alias), DiskSource));
      }
      GroupsAfter(required, Requirements(attached[..i], disks, storages), r);
      required := Add(required, r);
    }
    assert attached[..|attached|] == attached;
  }

  // ---------------------------------------------------------------------------------------------
  // Checking the classes

  function ToLoggableID(id: Option<string>, name: Option<string>): string {
    var identifier := id.GetOr("");
    if name.None? then identifier
    else name.value + if identifier != "" then "(" + identifier + ")" else ""
  }

  function GetCheckID(source: MappingSource): string {
    match source.kind
    case DiskSource => DISK_TARGET_ID
    case StorageDomainSource => STORAGE_TARGET_ID
  }

  /** What looking classes up fails with; a class that is not listed is found. */
  type FindErrors = map<string, string>

  function FailuresFor(r: Requirement, errors: FindErrors): seq<CheckFailure> {
    if r.target.name == DEFAULT_STORAGE_CLASS_TARGET_NAME then
      [CheckFailure(STORAGE_TARGET_DEFAULT_CLASS,
                    "Default storage class will be used for " + ToLoggableID(r.source.id, r.source.name) + " disk ")]
    else if r.target.name in errors then
      [CheckFailure(GetCheckID(r.source),
                    "Storage class " + r.target.name + " has not been found for "
                    + (if r.source.kind.DiskSource? then "disk" else "storage domain") + ": "
                    + ToLoggableID(r.source.id, r.source.name) + ". Error: " + errors[r.target.name])]
    else
      []
  }

  /** The failures of the requirements whose target is among the given ones. */
  ghost function FailuresOf(rs: seq<Requirement>, targets: set<ObjectIdentifier>,
                            errors: FindErrors): multiset<CheckFailure>
  {
    if rs == [] then multiset{}
    else
      var r := rs[|rs| - 1];
      FailuresOf(rs[..|rs| - 1], targets, errors)
      + if r.target in targets then multiset(FailuresFor(r, errors)) else multiset{}
  }

  ghost function Targets(rs: seq<Requirement>): set<ObjectIdentifier> {
    set r | r in rs :: r.target
  }

  lemma {:induction false} FailuresOfOneMore(rs: seq<Requirement>, targets: set<ObjectIdentifier>,
                                             target: ObjectIdentifier, errors: FindErrors)
    requires target !in targets
    ensures FailuresOf(rs, targets + {target}, errors)
              == FailuresOf(rs, targets, errors) + FailuresOf(rs, {target}, errors)
  {
    if rs != [] {
      FailuresOfOneMore(rs[..|rs| - 1], targets, target, errors);
    }
  }

  function FailuresAt(target: ObjectIdentifier, sources: seq<MappingSource>, errors: FindErrors): seq<CheckFailure> {
    if sources == [] then []
    else
      var n := |sources| - 1;
      FailuresAt(target, sources[..n], errors) + FailuresFor(Requirement(target, sources[n]), errors)
  }

  lemma {:induction false} FailuresAtTarget(rs: seq<Requirement>, target: ObjectIdentifier, errors: FindErrors)
    ensures multiset(FailuresAt(target, SourcesOf(rs, target), errors)) == FailuresOf(rs, {target}, errors)
  {
    if rs != [] {
      var init, r := rs[..|rs| - 1], rs[|rs| - 1];
      FailuresAtTarget(init, target, errors);
      if r.target == target {
        var sources := SourcesOf(rs, target);
        assert sources[..|sources| - 1] == SourcesOf(init, target);
        assert Requirement(target, sources[|sources| - 1]) == r;
      } else {
        assert SourcesOf(rs, target) == SourcesOf(init, target);
      }
    }
  }

  lemma {:induction false} NoFailuresAt(target: ObjectIdentifier, sources: seq<MappingSource>, errors: FindErrors)
    requires target.name != DEFAULT_STORAGE_CLASS_TARGET_NAME && target.name !in errors
    ensures FailuresAt(target, sources, errors) == []
  {
    if sources != [] {
      NoFailuresAt(target, sources[..|sources| - 1], errors);
    }
  }

  /** One failure for every requirement that has one, whatever the order of the map. */
  method ValidateStorageClasses(required: map<ObjectIdentifier, seq<MappingSource>>, ghost rs: seq<Requirement>,
                                errors: FindErrors)
    returns (failures: seq<CheckFailure>)
    requires Groups(required, rs)
    ensures multiset(failures) == FailuresOf(rs, Targets(rs), errors)
  {
    failures := [];
    var todo := required.Keys;
    ghost var done: set<ObjectIdentifier> := {};
    NoTargets(rs, errors);
    hide FailuresOf, FailuresAt, SourcesOf, FailuresFor;
    while todo != {}
      invariant todo <= required.Keys && done == required.Keys - todo
      invariant multiset(failures) == FailuresOf(rs, done, errors)
    {
      var className :| className in todo;
      FailuresAtTarget(rs, className, errors);
      FailuresOfOneMore(rs, done, className, errors);
      todo, done := todo - {className}, done + {className};
      var sources := required[className];
      if className.name == DEFAULT_STORAGE_CLASS_TARGET_NAME || className.name in errors {
        var found := FailuresOfSources(className, sources, errors);
        failures := failures + found;
      } else {
        NoFailuresAt(className, sources, errors);
      }
    }
    assert done == Targets(rs);
  }

  lemma {:induction false} NoTargets(rs: seq<Requirement>, errors: FindErrors)
    ensures FailuresOf(rs, {}, errors) == multiset{}
  {
    if rs != [] {
      NoTargets(rs[..|rs| - 1], errors);
    }
  }

  method FailuresOfSources(className: ObjectIdentifier, sources: seq<MappingSource>, errors: FindErrors)
    returns (failures: seq<CheckFailure>)
    ensures failures == FailuresAt(className, sources, errors)
  {
    failures := [];
    for i := 0 to |sources|
      invariant failures == FailuresAt(className, sources[..i], errors)
    {
      assert sources[..i + 1][..i] == sources[..i];
      failures := failures + FailuresFor(Requirement(className, sources[i]), errors);
    }
    assert sources[..|sources|] == sources;
  }

  method ValidateStorageMapping(attached: seq<Option<Disk>>, storageMapping: Option<seq<StorageItem>>,
                                diskMapping: Option<seq<StorageItem>>, errors: FindErrors)
    returns (failures: seq<CheckFailure>)
    ensures var rs := Requirements(attached, diskMapping.GetOr([]), storageMapping.GetOr([]));
            multiset(failures) == FailuresOf(rs, Targets(rs), errors)
  {
    var disks, storages := diskMapping.GetOr([]), storageMapping.GetOr([]);
    var requiredTargetsSet := GetRequiredStorageClasses(attached, disks, storages);
    failures := ValidateStorageClasses(requiredTargetsSet, Requirements(attached, disks, storages), errors);
  }

  // ---------------------------------------------------------------------------------------------
  // The scan and the indexes agree

  ghost predicate IsFirstMatch(items: seq<StorageItem>, j: int, id: string, name: string) {
    0 <= j < |items| && Matches(items[j], id, name) && forall i | 0 <= i < j :: !Matches(items[i], id, name)
  }

  /** The first item that matches is the only one with the ID, or the only match at all. */
  ghost predicate Settled(items: seq<StorageItem>, id: string, name: string) {
    forall j | IsFirstMatch(items, j, id, name) ::
      || (items[j].source.id == Some(id) && forall k | j < k < |items| :: items[k].source.id != Some(id))
      || (forall k | j < k < |items| :: !Matches(items[k], id, name))
  }

  ghost predicate NoRepeats(items: seq<StorageItem>) {
    forall i, j | 0 <= i < j < |items| :: items[i] != items[j]
  }

  /** Where a lookup from the end finds its item. */
  lemma {:induction false} LastByIDIsAt(items: seq<StorageItem>, id: string) returns (j: int)
    ensures LastByID(items, id).None? ==> forall k | 0 <= k < |items| :: items[k].source.id != Some(id)
    ensures LastByID(items, id).Some? ==>
              && 0 <= j < |items| && LastByID(items, id) == Some(items[j]) && items[j].source.id == Some(id)
              && forall k | j < k < |items| :: items[k].source.id != Some(id)
  {
    if items == [] {
      j := 0;
    } else if items[|items| - 1].source.id == Some(id) {
      j := |items| - 1;
    } else {
      j := LastByIDIsAt(items[..|items| - 1], id);
    }
  }

  lemma {:induction false} LastByNameIsAt(items: seq<StorageItem>, name: string) returns (j: int)
    ensures LastByName(items, name).None? ==> forall k | 0 <= k < |items| :: items[k].source.name != Some(name)
    ensures LastByName(items, name).Some? ==>
              && 0 <= j < |items| && LastByName(items, name) == Some(items[j]) && items[j].source.name == Some(name)
              && forall k | j < k < |items| :: items[k].source.name != Some(name)
  {
    if items == [] {
      j := 0;
    } else if items[|items| - 1].source.name == Some(name) {
      j := |items| - 1;
    } else {
      j := LastByNameIsAt(items[..|items| - 1], name);
    }
  }

  lemma {:induction false} FirstMatchIsAt(items: seq<StorageItem>, id: string, name: string) returns (j: int)
    ensures FirstMatch(items, id, name).None? ==> forall k | 0 <= k < |items| :: !Matches(items[k], id, name)
    ensures FirstMatch(items, id, name).Some? ==>
              IsFirstMatch(items, j, id, name) && FirstMatch(items, id, name) == Some(items[j])
  {
    if items == [] || Matches(items[0], id, name) {
      j := 0;
    } else {
      j := FirstMatchIsAt(items[1..], id, name);
      assert forall k | 1 <= k < |items| :: items[k] == items[1..][k - 1];
      j := j + 1;
    }
  }

  /** The scan and the indexes choose the same item when the match is settled; where no item is listed
      twice, they choose the same one only then. */
  lemma ScanAgreesWithIndexes(items: seq<StorageItem>, id: string, name: string)
    ensures Settled(items, id, name) ==> FirstMatch(items, id, name) == Indexed(items, id, name)
    ensures NoRepeats(items) ==> (Settled(items, id, name) <==> FirstMatch(items, id, name) == Indexed(items, id, name))
  {
    hide FirstMatch, LastByID, LastByName, IndexByID, IndexByName;
    var first := FirstMatchIsAt(items, id, name);
    var byID := LastByIDIsAt(items, id);
    var byName := LastByNameIsAt(items, name);
    IndexByIDIsLast(items, id);
    IndexByNameIsLast(items, name);
    if FirstMatch(items, id, name).Some? {
      assert forall j | IsFirstMatch(items, j, id, name) :: j == first;
    }
  }

  /** At most one matching item is enough. */
  lemma OneMatchIsSettled(items: seq<StorageItem>, id: string, name: string)
    requires forall i, j | 0 <= i < j < |items| && Matches(items[i], id, name) :: !Matches(items[j], id, name)
    ensures FirstMatch(items, id, name) == Indexed(items, id, name)
  {
    ScanAgreesWithIndexes(items, id, name);
  }

  /** A disk named by one item and identified by a later one gets different classes. */
  lemma TwoMatchesDisagree(id: string, name: string)
    ensures var slow := Item(Source(None, Some(name)), StorageTarget(ObjectIdentifier("slow", None), None));
            var fast := Item(Source(Some(id), None), StorageTarget(ObjectIdentifier("fast", None), None));
            FirstMatch([slow, fast], id, name) == Some(slow) && Indexed([slow, fast], id, name) == Some(fast)
  {
    var slow := Item(Source(None, Some(name)), StorageTarget(ObjectIdentifier("slow", None), None));
    var fast := Item(Source(Some(id), None), StorageTarget(ObjectIdentifier("fast", None), None));
    IndexByIDIsLast([slow, fast], id);
    assert LastByID([slow, fast], id) == Some(fast);
  }

  // ---------------------------------------------------------------------------------------------
  // What a passed validation is worth

  ghost predicate DiskIsSettled(disk: Disk, disks: seq<StorageItem>, storages: seq<StorageItem>) {
    && Settled(disks, disk.id, disk.alias)
    && (disk.domain.Some? ==> Settled(storages, disk.domain.value.id, disk.domain.value.name))
  }

  /** The item the validator's indexes choose for a disk. */
  function IndexedItem(disk: Disk, disks: seq<StorageItem>, storages: seq<StorageItem>): Option<StorageItem> {
    var own := Indexed(disks, disk.id, disk.alias);
    if own.Some? || disk.domain.None? then own else Indexed(storages, disk.domain.value.id, disk.domain.value.name)
  }

  /** For a settled disk the mapper uses the item the validator checked: its class is the one that was
      checked, and its volume mode is the item's own. Only a disk without a domain, and without an item of
      its own, has the scan read a missing domain, and that exactly if some item has something to compare. */
  lemma SameClass(disk: Disk, disks: seq<StorageItem>, storages: seq<StorageItem>)
    requires DiskIsSettled(disk, disks, storages)
    ensures var choice, item := ScannedChoice(disk, disks, storages), IndexedItem(disk, disks, storages);
            if && item.None? && disk.domain.None?
               && exists other | other in storages :: other.source.id.Some? || other.source.name.Some?
            then choice == NilStorageDomain
            else
              && choice == (if item.Some? then Chosen(item.value) else NoItem)
              && GetStorageClassForDisk(choice)
                 == (var name := RequirementOf(disk, disks, storages).target.name;
                     if name == "" then None else Some(name))
              && GetVolumeMode(choice) == if item.None? then Some(Filesystem) else item.value.target.volumeMode
  {
    assert forall other :: Comparable(other) <==> other.source.id.Some? || other.source.name.Some?;
    ScanAgreesWithIndexes(disks, disk.id, disk.alias);
    if disk.domain.Some? {
      ScanAgreesWithIndexes(storages, disk.domain.value.id, disk.domain.value.name);
    }
  }

  predicate IsTargetFailure(f: CheckFailure) {
    f.id == DISK_TARGET_ID || f.id == STORAGE_TARGET_ID
  }

  predicate ClassIsMissing(disk: Disk, disks: seq<StorageItem>, storages: seq<StorageItem>, errors: FindErrors) {
    var wanted := GetStorageClassForDisk(ScannedChoice(disk, disks, storages));
    wanted.Some? && wanted.value in errors
  }

  /** The failure tells which mapping was wrong: the check of a disk fails exactly if some item matches
      the disk itself. */
  lemma CheckTellsMapping(disk: Disk, disks: seq<StorageItem>, storages: seq<StorageItem>, errors: FindErrors)
    requires RequirementOf(disk, disks, storages).target.name in errors
             && RequirementOf(disk, disks, storages).target.name != DEFAULT_STORAGE_CLASS_TARGET_NAME
    ensures var fs := FailuresFor(RequirementOf(disk, disks, storages), errors);
            && |fs| == 1
            && (fs[0].id == DISK_TARGET_ID <==> exists item | item in disks :: Matches(item, disk.id, disk.alias))
            && (fs[0].id == STORAGE_TARGET_ID <==> forall item | item in disks :: !Matches(item, disk.id, disk.alias))
  {
    hide IndexByID, IndexByName, LastByID, LastByName;
    IndexByIDIsLast(disks, disk.id);
    IndexByNameIsLast(disks, disk.alias);
    var byID := LastByIDIsAt(disks, disk.id);
    var byName := LastByNameIsAt(disks, disk.alias);
    if Indexed(disks, disk.id, disk.alias).Some? {
      var found := Indexed(disks, disk.id, disk.alias).value;
      assert found in disks && Matches(found, disk.id, disk.alias);
    }
  }

  lemma {:induction false} FailuresComeFromRequirements(rs: seq<Requirement>, targets: set<ObjectIdentifier>,
                                                        errors: FindErrors)
    requires forall r | r in rs :: r.target in targets
    ensures (exists f :: f in FailuresOf(rs, targets, errors) && IsTargetFailure(f))
            <==> exists r | r in rs :: r.target.name != "" && r.target.name in errors
  {
    if rs != [] {
      var init, last := rs[..|rs| - 1], rs[|rs| - 1];
      assert rs == init + [last];
      assert last in rs;
      FailuresComeFromRequirements(init, targets, errors);
      FailuresOfLast(last, errors);
      hide FailuresFor, IsTargetFailure;
      var fs := FailuresFor(last, errors);
      assert forall f ::
          f in FailuresOf(rs, targets, errors) <==> f in FailuresOf(init, targets, errors) || f in multiset(fs);
    }
  }

  lemma FailuresOfLast(r: Requirement, errors: FindErrors)
    ensures (exists f :: f in multiset(FailuresFor(r, errors)) && IsTargetFailure(f))
            <==> r.target.name != "" && r.target.name in errors
    ensures (exists f: CheckFailure :: f in multiset(FailuresFor(r, errors)) && f.id == "storage.target.default")
            <==> r.target.name == ""
  {
    var fs := FailuresFor(r, errors);
    if fs != [] {
      assert fs == [fs[0]] && fs[0] in multiset(fs);
    }
  }

  /** Somebody is told of the default class exactly if something is to get it. */
  lemma {:induction false} DefaultsComeFromRequirements(rs: seq<Requirement>, targets: set<ObjectIdentifier>,
                                                        errors: FindErrors)
    requires forall r | r in rs :: r.target in targets
    ensures (exists f: CheckFailure :: f in FailuresOf(rs, targets, errors) && f.id == "storage.target.default")
            <==> exists r | r in rs :: r.target.name == ""
  {
    if rs != [] {
      var init, last := rs[..|rs| - 1], rs[|rs| - 1];
      assert rs == init + [last];
      assert last in rs;
      DefaultsComeFromRequirements(init, targets, errors);
      FailuresOfLast(last, errors);
      hide FailuresFor;
      var fs := FailuresFor(last, errors);
      assert forall f ::
          f in FailuresOf(rs, targets, errors) <==> f in FailuresOf(init, targets, errors) || f in multiset(fs);
    }
  }

  lemma {:induction false} RequirementsMeans(attached: seq<Option<Disk>>, disks: seq<StorageItem>,
                                             storages: seq<StorageItem>)
    ensures forall r :: r in Requirements(attached, disks, storages)
                        <==> exists a | a in attached && a.Some? :: RequirementOf(a.value, disks, storages) == r
  {
    if attached != [] {
      var init, last := attached[..|attached| - 1], attached[|attached| - 1];
      RequirementsMeans(init, disks, storages);
      assert attached == init + [last];
      assert last in attached;
    }
  }

  /** The validator reports a missing target exactly when the mapper would ask for a class that cannot
      be found: every disk being settled, and readable by the scan. */
  lemma {:induction false} TargetFailuresAreExact(attached: seq<Option<Disk>>, disks: seq<StorageItem>,
                                                  storages: seq<StorageItem>, errors: FindErrors)
    requires forall a | a in attached && a.Some? ::
               DiskIsSettled(a.value, disks, storages) && !ScannedChoice(a.value, disks, storages).NilStorageDomain?
    ensures var rs := Requirements(attached, disks, storages);
            (exists f :: f in FailuresOf(rs, Targets(rs), errors) && IsTargetFailure(f))
            <==> exists a | a in attached && a.Some? :: ClassIsMissing(a.value, disks, storages, errors)
  {
    var rs := Requirements(attached, disks, storages);
    FailuresComeFromRequirements(rs, Targets(rs), errors);
    RequirementsMeans(attached, disks, storages);
    forall a | a in attached && a.Some?
      ensures RequirementOf(a.value, disks, storages) in rs
      ensures var name := RequirementOf(a.value, disks, storages).target.name;
              ClassIsMissing(a.value, disks, storages, errors) <==> name != "" && name in errors
    {
      SameClass(a.value, disks, storages);
    }
  }
}
