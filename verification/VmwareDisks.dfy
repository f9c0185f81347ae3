/** Attaching VMware disks: DataVolumes arrive in map order, and each one is appended and the whole list
    sorted again (pkg/providers/vmware/mapper/mapper.go). */
module VmwareDisks {
  import opened Wrappers
  import opened Names
  import opened Numerals

  const BUS_TYPE_VIRTIO := "virtio"

  datatype Volume = Volume(name: string, dataVolumeName: string)

  datatype Disk = Disk(name: string, bus: string)

  // ---------------------------------------------------------------------------------------------
  // The order of names

  /** Go's order on strings. */
  predicate Less(a: string, b: string) {
    if b == [] then false
    else if a == [] then true
    else a[0] < b[0] || (a[0] == b[0] && Less(a[1..], b[1..]))
  }

  /** The first difference decides, and the shorter of two of which one continues the other comes first. */
  lemma {:induction false} LessIffDiffers(a: string, b: string)
    ensures Less(a, b) <==>
            exists k | 0 <= k <= |a| && k < |b| :: a[..k] == b[..k] && (k == |a| || a[k] < b[k])
  {
    if a != [] && b != [] {
      LessIffDiffers(a[1..], b[1..]);
      if Less(a, b) {
        if a[0] < b[0] {
          assert a[..0] == b[..0];
        } else {
          var k :| 0 <= k <= |a[1..]| && k < |b[1..]| && a[1..][..k] == b[1..][..k]
                   && (k == |a[1..]| || a[1..][k] < b[1..][k]);
          assert a[..k + 1] == [a[0]] + a[1..][..k] && b[..k + 1] == [b[0]] + b[1..][..k];
        }
      }
      if k :| 0 <= k <= |a| && k < |b| && a[..k] == b[..k] && (k == |a| || a[k] < b[k]) {
        if k > 0 {
          assert a[0] == a[..k][0] == b[..k][0] == b[0];
          assert a[1..][..k - 1] == a[..k][1..] && b[1..][..k - 1] == b[..k][1..];
        }
      }
    } else if a == [] && b != [] {
      assert a[..0] == b[..0];
    }
  }

  lemma {:induction false} LessIsTotal(a: string, b: string)
    ensures a == b || Less(a, b) || Less(b, a)
    ensures !(Less(a, b) && Less(b, a)) && !Less(a, a)
  {
    if a != [] {
      LessIsTotal(a[1..], a[1..]);
      if b != [] {
        LessIsTotal(a[1..], b[1..]);
        assert a == [a[0]] + a[1..] && b == [b[0]] + b[1..];
      }
    }
  }

  lemma {:induction false} LessIsTransitive(a: string, b: string, c: string)
    requires !Less(b, a) && !Less(c, b)
    ensures !Less(c, a)
  {
    if a != [] && b != [] && c != [] {
      if a[0] == b[0] == c[0] {
        LessIsTransitive(a[1..], b[1..], c[1..]);
      }
    }
  }

  ghost predicate Sorted(disks: seq<Disk>) {
    forall i, j | 0 <= i < j < |disks| :: !Less(disks[j].name, disks[i].name)
  }

  /** Disks of one name are one disk; so it is for disks that MapDisk makes. */
  ghost predicate NamesTell(disks: seq<Disk>) {
    forall x, y | x in disks && y in disks && x.name == y.name :: x == y
  }

  lemma HeadIsLeast(a: seq<Disk>, b: seq<Disk>)
    requires Sorted(a) && multiset(a) == multiset(b) && b != []
    ensures a != [] && !Less(b[0].name, a[0].name)
  {
    LessIsTotal(b[0].name, b[0].name);
    assert b[0] in multiset(a);
  }

  /** A sorted list is settled by what is in it. */
  lemma {:induction false} SortedIsUnique(a: seq<Disk>, b: seq<Disk>)
    requires Sorted(a) && Sorted(b) && multiset(a) == multiset(b) && NamesTell(a)
    ensures a == b
  {
    assert |a| == |multiset(a)| == |multiset(b)| == |b|;
    if a != [] {
      HeadsAgree(a, b);
      TailsMatch(a, b);
      assert a == [a[0]] + a[1..] && b == [b[0]] + b[1..];
      SortedIsUnique(a[1..], b[1..]);
    }
  }

  lemma HeadsAgree(a: seq<Disk>, b: seq<Disk>)
    requires Sorted(a) && Sorted(b) && multiset(a) == multiset(b) && NamesTell(a)
    requires a != [] && b != []
    ensures a[0] == b[0]
  {
    HeadIsLeast(a, b);
    HeadIsLeast(b, a);
    LessIsTotal(a[0].name, b[0].name);
    assert b[0] in multiset(a);
  }

  lemma TailsMatch(a: seq<Disk>, b: seq<Disk>)
    requires multiset(a) == multiset(b) && a != [] && b != [] && a[0] == b[0]
    ensures multiset(a[1..]) == multiset(b[1..])
  {
    assert a == [a[0]] + a[1..] && b == [b[0]] + b[1..];
    assert multiset(a[1..]) == multiset(a) - multiset{a[0]};
    assert multiset(b[1..]) == multiset(b) - multiset{b[0]};
  }

  /** The sort promises a sorted permutation and nothing about equal names. */
  method SortByName(disks: seq<Disk>) returns (sorted: seq<Disk>)
    ensures Sorted(sorted) && multiset(sorted) == multiset(disks)
  {
    sorted := [];
    for i := 0 to |disks|
      invariant Sorted(sorted) && multiset(sorted) == multiset(disks[..i])
    {
      assert disks[..i + 1] == disks[..i] + [disks[i]];
      sorted := Insert(sorted, disks[i]);
    }
    assert disks[..|disks|] == disks;
  }

  method Insert(disks: seq<Disk>, disk: Disk) returns (r: seq<Disk>)
    requires Sorted(disks)
    ensures Sorted(r) && multiset(r) == multiset(disks) + multiset{disk}
  {
    var k := |disks|;
    while k > 0 && Less(disk.name, disks[k - 1].name)
      invariant 0 <= k <= |disks|
      invariant forall j | k <= j < |disks| :: Less(disk.name, disks[j].name)
    {
      k := k - 1;
    }
    InsertedAt(disks, disk, k);
    return disks[..k] + [disk] + disks[k..];
  }

  lemma SplitAt(disks: seq<Disk>, disk: Disk, k: nat)
    requires k <= |disks|
    ensures multiset(disks[..k] + [disk] + disks[k..]) == multiset(disks) + multiset{disk}
  {
    assert disks == disks[..k] + disks[k..];
  }

  lemma InsertedAt(disks: seq<Disk>, disk: Disk, k: nat)
    requires Sorted(disks) && k <= |disks|
    requires forall j | k <= j < |disks| :: Less(disk.name, disks[j].name)
    requires k > 0 ==> !Less(disk.name, disks[k - 1].name)
    ensures Sorted(disks[..k] + [disk] + disks[k..])
    ensures multiset(disks[..k] + [disk] + disks[k..]) == multiset(disks) + multiset{disk}
  {
    hide Less;
    SplitAt(disks, disk, k);
    forall j | 0 <= j < k
      ensures !Less(disk.name, disks[j].name)
    {
      if j < k - 1 {
        LessIsTransitive(disks[j].name, disks[k - 1].name, disk.name);
      }
    }
    forall j | k <= j < |disks|
      ensures !Less(disks[j].name, disk.name)
    {
      LessIsTotal(disk.name, disks[j].name);
    }
  }

  // ---------------------------------------------------------------------------------------------
  // Attaching

  function DiskFor(dv: DVName): Disk {
    Disk(VolumeName(dv), BUS_TYPE_VIRTIO)
  }

  function DisksFor(dvs: seq<DVName>): seq<Disk>
  {
    if dvs == [] then [] else DisksFor(dvs[..|dvs| - 1]) + [DiskFor(dvs[|dvs| - 1])]
  }

  function VolumesFor(dvs: seq<DVName>): seq<Volume>
  {
    if dvs == [] then [] else VolumesFor(dvs[..|dvs| - 1]) + [Volume(VolumeName(dvs[|dvs| - 1]), dvs[|dvs| - 1])]
  }

  /** What a run of MapDisk calls leaves in the list of disks. */
  ghost predicate Attached(start: seq<Disk>, dvs: seq<DVName>, disks: seq<Disk>)
  {
    && multiset(disks) == multiset(start) + multiset(DisksFor(dvs))
    && (if dvs == [] then disks == start else Sorted(disks))
  }

  class VMSpec {
    var volumes: seq<Volume>
    var disks: seq<Disk>

    constructor (disks: seq<Disk>)
      ensures this.volumes == [] && this.disks == disks
    {
      this.volumes, this.disks := [], disks;
    }

    method MapDisk(dv: DVName)
      modifies this
      ensures volumes == old(volumes) + [Volume(VolumeName(dv), dv)]
      ensures multiset(disks) == multiset(old(disks)) + multiset{DiskFor(dv)}
      ensures DiskFor(dv) == Disk(VolumeName(dv), "virtio")
      ensures Sorted(disks)
    {
      var name := VolumeName(dv);
      volumes := volumes + [Volume(name, dv)];
      var appended := disks + [Disk(name, BUS_TYPE_VIRTIO)];
      disks := SortByName(appended);
    }

    /** One MapDisk for each DataVolume, in the order in which they are done. */
    method MapDisks(dvs: seq<DVName>)
        modifies this
      ensures volumes == old(volumes) + VolumesFor(dvs)
      ensures Attached(old(disks), dvs, disks)
    {
      hide DiskFor, VolumeName;
      for i := 0 to |dvs|
        invariant volumes == old(volumes) + VolumesFor(dvs[..i])
        invariant Attached(old(disks), dvs[..i], disks)
      {
        assert dvs[..i + 1][..i] == dvs[..i];
        MapDisk(dvs[i]);
      }
      assert dvs[..|dvs|] == dvs;
    }
  }

  /** Two orders of the same DataVolumes leave the same list of disks, even if some share a volume name,
      as long as the disks that were there before are told apart by name as well. */
  lemma AttachingIsConfluent(start: seq<Disk>, dvs: seq<DVName>, other: seq<DVName>, disks: seq<Disk>,
                             otherDisks: seq<Disk>)
    requires multiset(dvs) == multiset(other)
    requires Attached(start, dvs, disks) && Attached(start, other, otherDisks)
    requires NamesTell(start + DisksFor(dvs))
    ensures disks == otherDisks
  {
    assert |dvs| == |multiset(dvs)| == |multiset(other)| == |other|;
    if dvs != [] {
      DisksFollowVolumes(dvs, other);
      NamesTellOf(disks, start, DisksFor(dvs));
      hide DisksFor, Sorted, NamesTell;
      SortedIsUnique(disks, otherDisks);
    }
  }

  lemma NamesTellOf(disks: seq<Disk>, start: seq<Disk>, added: seq<Disk>)
    requires multiset(disks) == multiset(start) + multiset(added) && NamesTell(start + added)
    ensures NamesTell(disks)
  {
    forall d | d in disks
      ensures d in start + added
    {
      assert d in multiset(disks);
    }
  }

  /** From no disks, nothing has to be asked. */
  lemma AttachingFromNone(dvs: seq<DVName>, other: seq<DVName>, disks: seq<Disk>, otherDisks: seq<Disk>)
    requires multiset(dvs) == multiset(other)
    requires Attached([], dvs, disks) && Attached([], other, otherDisks)
    ensures disks == otherDisks
  {
    DisksAreVirtio(dvs);
    AttachingIsConfluent([], dvs, other, disks, otherDisks);
  }

  lemma {:induction false} DisksAreVirtio(dvs: seq<DVName>)
    ensures forall d | d in DisksFor(dvs) :: d.bus == BUS_TYPE_VIRTIO
  {
    if dvs != [] {
      DisksAreVirtio(dvs[..|dvs| - 1]);
    }
  }

  lemma {:induction false} DisksFollowVolumes(dvs: seq<DVName>, other: seq<DVName>)
    requires multiset(dvs) == multiset(other)
    ensures multiset(DisksFor(dvs)) == multiset(DisksFor(other))
  {
    hide DiskFor;
    assert |dvs| == |multiset(dvs)| == |multiset(other)| == |other|;
    if dvs != [] {
      var init, last := dvs[..|dvs| - 1], dvs[|dvs| - 1];
      assert dvs == init + [last];
      assert last in multiset(other);
      var k :| 0 <= k < |other| && other[k] == last;
      assert other == other[..k] + [last] + other[k + 1..];
      var rest := other[..k] + other[k + 1..];
      assert multiset(other) == multiset(other[..k]) + multiset{last} + multiset(other[k + 1..]);
      assert multiset(rest) == multiset(other) - multiset{last} == multiset(dvs) - multiset{last} == multiset(init);
      DisksFollowVolumes(init, rest);
      MoveLast(other[..k], last, other[k + 1..]);
    }
  }

  lemma {:induction false} MoveLast(a: seq<DVName>, x: DVName, b: seq<DVName>)
    ensures multiset(DisksFor(a + [x] + b)) == multiset(DisksFor(a + b)) + multiset{DiskFor(x)}
  {
    hide DiskFor;
    if b == [] {
      assert a + [x] + b == a + [x];
      assert a + b == a;
      assert (a + [x])[..|a|] == a;
    } else {
      var init, last := b[..|b| - 1], b[|b| - 1];
      assert (a + [x] + b)[..|a + [x] + b| - 1] == a + [x] + init;
      assert (a + b)[..|a + b| - 1] == a + init;
      MoveLast(a, x, init);
    }
  }

  // ---------------------------------------------------------------------------------------------
  // Disks and volumes

  /** A disk has exactly one volume of its name. */
  ghost predicate HasOneVolume(d: Disk, volumes: seq<Volume>) {
    && (exists v | v in volumes :: v.name == d.name)
    && forall i, j | 0 <= i < j < |volumes| && volumes[i].name == d.name :: volumes[j].name != d.name
  }

  ghost predicate DistinctVolumeNames(dvs: seq<DVName>)
  {
    forall i, j | 0 <= i < j < |dvs| :: VolumeName(dvs[i]) != VolumeName(dvs[j])
  }

  lemma {:induction false} ForEach(dvs: seq<DVName>)
    ensures |DisksFor(dvs)| == |VolumesFor(dvs)| == |dvs|
    ensures forall k | 0 <= k < |dvs| :: DisksFor(dvs)[k] == DiskFor(dvs[k])
    ensures forall k | 0 <= k < |dvs| :: VolumesFor(dvs)[k] == Volume(VolumeName(dvs[k]), dvs[k])
  {
    hide DiskFor, VolumeName;
    if dvs != [] {
      ForEach(dvs[..|dvs| - 1]);
    }
  }

  /** From nothing, every disk ends up with exactly one volume exactly when the volume names are
      distinct. */
  lemma EveryDiskHasItsVolume(dvs: seq<DVName>, disks: seq<Disk>)
    requires Attached([], dvs, disks)
    ensures (forall d | d in disks :: HasOneVolume(d, VolumesFor(dvs))) <==> DistinctVolumeNames(dvs)
  {
    hide VolumeName, Sorted;
    ForEach(dvs);
    var volumes, made := VolumesFor(dvs), DisksFor(dvs);
    hide VolumesFor, DisksFor;
    assert forall d :: d in disks <==> d in made by {
      assert forall d :: d in disks <==> d in multiset(disks);
      assert forall d :: d in made <==> d in multiset(made);
    }
    assert forall k | 0 <= k < |dvs| :: made[k] in disks && volumes[k] in volumes && volumes[k].name == made[k].name;
    if forall d | d in disks :: HasOneVolume(d, volumes) {
      forall i, j | 0 <= i < j < |dvs|
        ensures VolumeName(dvs[i]) != VolumeName(dvs[j])
      {
        assert HasOneVolume(made[i], volumes);
      }
    }
    if DistinctVolumeNames(dvs) {
      forall d | d in disks
        ensures HasOneVolume(d, volumes)
      {
        var k :| 0 <= k < |dvs| && made[k] == d;
      }
    }
  }

  // ---------------------------------------------------------------------------------------------
  // The order of devices

  /** From nothing, the disks are in the order of the DataVolumes exactly when that is the order of their
      names. */
  lemma InDeviceOrderIff(dvs: seq<DVName>, disks: seq<Disk>)
    requires Attached([], dvs, disks)
    ensures disks == DisksFor(dvs) <==> Sorted(DisksFor(dvs))
  {
    if dvs != [] && Sorted(DisksFor(dvs)) {
      DisksAreVirtio(dvs);
      NamesTellOf(disks, [], DisksFor(dvs));
      SortedIsUnique(disks, DisksFor(dvs));
    }
  }

  /** The label VMware gives the k-th hard disk. */
  function DeviceLabel(k: nat): string {
    "Hard disk " + Decimal(k)
  }

  function DeviceVolume(targetVMName: string, k: nat): DVName {
    BuildDataVolumeName(targetVMName, DeviceLabel(k))
  }

  /** The DataVolumes of a VM with so many hard disks, in the order of the devices. */
  function HardDisks(targetVMName: string, n: nat): (dvs: seq<DVName>)
    ensures |dvs| == n && forall k | 0 <= k < n :: dvs[k] == DeviceVolume(targetVMName, k + 1)
  {
    seq(n, k requires 0 <= k < n => DeviceVolume(targetVMName, k + 1))
  }

  lemma StrippedParts(k: nat)
    ensures Stripped("-hard") == "-hard" && Stripped("disk") == "disk" && Stripped(" ") == ""
    ensures Stripped(Decimal(k)) == Decimal(k)
  {
    StrippedOfStripped("-hard");
    StrippedOfStripped("disk");
    StrippedOfStripped(Decimal(k));
  }

  lemma StrippedLabel(k: nat)
    ensures Stripped("-hard" + (" " + ("disk" + (" " + Decimal(k))))) == "-harddisk" + Decimal(k)
  {
    StrippedParts(k);
    hide Stripped, Decimal;
    var d := Decimal(k);
    StrippedOfConcat("-hard", " " + ("disk" + (" " + d)));
    StrippedOfConcat(" ", "disk" + (" " + d));
    StrippedOfConcat("disk", " " + d);
    StrippedOfConcat(" ", d);
    assert "-hard" + ("" + ("disk" + ("" + d))) == "-harddisk" + d;
  }

  /** A name between two legal characters that no rule but the removal of characters touches. */
  lemma NormalizedLow(name: string, low: string)
    requires |low| > 0 && IsLegal(low[0]) && IsLegal(low[|low| - 1]) && Lowered(name) == low
    ensures Normalized(name) == Success(Stripped(low))
  {
    assert Trimmed(low) == low;
  }

  lemma LoweredH()
    ensures Lowered("H") == "h"
  {
    assert 'a' + ('H' - 'A') == 'h';
    assert |Lowered("H")| == 1 && Lowered("H")[0] == 'h';
  }

  lemma LoweredRest()
    ensures Lowered("-") == "-" && Lowered("ard disk ") == "ard disk "
  {
    LegalNamesAreLow("-");
    LegalNamesAreLow("ard disk ");
  }

  lemma LoweredPart()
    ensures Lowered("-Hard disk ") == "-" + ("h" + "ard disk ")
  {
    hide Lowered;
    LoweredH();
    LoweredRest();
    LoweredMiddle("-", "H", "h", "ard disk ");
    assert "-" + ("H" + "ard disk ") == "-Hard disk ";
  }

  lemma LoweredMiddle(a: string, b: string, low: string, c: string)
    requires Lowered(a) == a && Lowered(b) == low && Lowered(c) == c
    ensures Lowered(a + (b + c)) == a + (low + c)
  {
    hide Lowered;
    LoweredOfConcat(a, b + c);
    LoweredOfConcat(b, c);
  }

  lemma Parts(d: string)
    ensures "-" + ("h" + "ard disk ") + d == "-hard" + (" " + ("disk" + (" " + d)))
  {
    assert "-" + ("h" + "ard disk ") == "-hard" + (" " + ("disk" + " "));
    Regrouped("-hard", " ", "disk", " ", d);
  }

  lemma Regrouped(a: string, b: string, c: string, d: string, e: string)
    ensures a + (b + (c + d)) + e == a + (b + (c + (d + e)))
  {}

  lemma LoweredLabel(targetVMName: string, k: nat)
    requires LabelShape(targetVMName)
    ensures Lowered(targetVMName + ("-Hard disk " + Decimal(k)))
              == targetVMName + ("-hard" + (" " + ("disk" + (" " + Decimal(k)))))
  {
    LegalNamesAreLow(targetVMName);
    LegalNamesAreLow(Decimal(k));
    LoweredPart();
    Parts(Decimal(k));
    hide Lowered, LabelShape, Decimal;
    LoweredMiddle(targetVMName, "-Hard disk ", "-" + ("h" + "ard disk "), Decimal(k));
  }

  lemma NormalizedLabel(targetVMName: string, k: nat)
    requires LabelShape(targetVMName)
    ensures Normalized(targetVMName + ("-Hard disk " + Decimal(k)))
              == Success(targetVMName + ("-harddisk" + Decimal(k)))
  {
    var d := Decimal(k);
    var tail := "-hard" + (" " + ("disk" + (" " + d)));
    var low := targetVMName + tail;
    LoweredLabel(targetVMName, k);
    assert low[0] == targetVMName[0] && low[|low| - 1] == d[|d| - 1];
    LabelsAreLegal(targetVMName);
    StrippedOfStripped(targetVMName);
    hide Lowered, Stripped, Normalized;
    NormalizedLow(targetVMName + ("-Hard disk " + d), low);
    StrippedLabel(k);
    StrippedOfConcat(targetVMName, tail);
  }

  lemma NotASubdomain(targetVMName: string, k: nat)
    requires LabelShape(targetVMName)
    ensures !IsSubdomain(targetVMName + ("-Hard disk " + Decimal(k)))
  {
    var name := targetVMName + ("-Hard disk " + Decimal(k));
    assert name[|targetVMName| + 5] == ' ';
    SubdomainWithoutDots(name);
  }

  lemma HardDiskName(targetVMName: string, k: nat)
    requires IsLabel(targetVMName) && |Decimal(k)| <= 100
    ensures DeviceVolume(targetVMName, k) == targetVMName + ("-harddisk" + Decimal(k))
  {
    NotASubdomain(targetVMName, k);
    NormalizedLabel(targetVMName, k);
    DeviceOf(targetVMName, k);
    hide Normalized, Decimal, LabelShape, IsSubdomain, DeviceLabel;
  }

  lemma DeviceOf(targetVMName: string, k: nat)
    ensures targetVMName + "-" + DeviceLabel(k) == targetVMName + ("-Hard disk " + Decimal(k))
  {
    hide Decimal;
    assert "-" + DeviceLabel(k) == "-Hard disk " + Decimal(k);
  }

  /** The DataVolume of the k-th hard disk. */
  function Device(targetVMName: string, k: nat): string {
    targetVMName + ("-harddisk" + Decimal(k))
  }

  lemma HardDiskVolume(targetVMName: string, k: nat)
    requires IsLabel(targetVMName) && k <= MAX_INT
    ensures DeviceVolume(targetVMName, k) == Device(targetVMName, k)
    ensures |Device(targetVMName, k)| == |targetVMName| + 9 + |Decimal(k)| <= 91
    ensures VolumeName(DeviceVolume(targetVMName, k))
            == var dv := Device(targetVMName, k); "dv-" + (Cut(dv, KeptInVolume(|dv|)) + VolumeSuffix(|dv|))
  {
    SuffixFits(k);
    HardDiskName(targetVMName, k);
    hide DeviceVolume, Decimal;
    VolumeNameIs(DeviceVolume(targetVMName, k));
  }

  // ---------------------------------------------------------------------------------------------
  // Which hard disks have a volume of their own

  lemma {:induction false} LongerNumbers(i: nat, j: nat)
    requires i <= j
    ensures |Decimal(i)| <= |Decimal(j)|
  {
    if i >= 10 {
      LongerNumbers(i / 10, j / 10);
    }
  }

  lemma DevicesDiffer(targetVMName: string, i: nat, j: nat)
    requires i != j
    ensures Device(targetVMName, i) != Device(targetVMName, j)
  {
    DecimalRoundTrip(i);
    DecimalRoundTrip(j);
    var n := |targetVMName| + 9;
    hide Decimal;
    assert Device(targetVMName, i)[n..] == Decimal(i) && Device(targetVMName, j)[n..] == Decimal(j);
  }

  /** A name of 60 characters does not read like a shortened one. */
  lemma NoDashThere(targetVMName: string, k: nat)
    requires |Device(targetVMName, k)| == 60
    ensures Device(targetVMName, k)[57] != '-'
  {
    var d := Decimal(k);
    var tail := "-harddisk" + d;
    var at := 57 - |targetVMName|;
    assert at == 6 + |d|;
    assert Device(targetVMName, k)[57] == tail[at];
    if at >= 9 {
      assert IsDigit(d[at - 9]);
    } else {
      assert "-harddisk"[7] == 's' && "-harddisk"[8] == 'k';
    }
  }

  /** The same for any two names of devices, one of which at least is not shortened. */
  lemma DifferentNamesDiffer(a: DVName, b: DVName)
    requires a != b && |a| <= |b| && |a| <= 60 && |b| <= 96
    requires |a| == 60 ==> a[57] != '-'
    ensures VolumeName(a) != VolumeName(b)
  {
    hide VolumeName, Decimal;
    if |a| == |b| {
      VolumeNamesAgreeIff(a, b);
      assert Cut(a, |a|) == a && Cut(b, |b|) == b;
    } else {
      VolumeNamesOfDifferentLengths(a, b);
      if |b| > 60 {
        assert (Cut(b, 57) + VolumeSuffix(|b|))[57] == '-';
      }
    }
  }

  lemma VolumesDiffer(targetVMName: string, n: nat, i: nat, j: nat)
    requires IsLabel(targetVMName) && 1 <= i < j <= n <= MAX_INT
    requires |targetVMName| + |Decimal(n - 1)| <= 51
    ensures VolumeName(DeviceVolume(targetVMName, i)) != VolumeName(DeviceVolume(targetVMName, j))
  {
    hide VolumeName, DeviceVolume, Device, Decimal, IsLabel;
    LongerNumbers(i, n - 1);
    LongerNumbers(i, j);
    HardDiskVolume(targetVMName, i);
    HardDiskVolume(targetVMName, j);
    DevicesDiffer(targetVMName, i, j);
    if |Device(targetVMName, i)| == 60 {
      NoDashThere(targetVMName, i);
    }
    DifferentNamesDiffer(Device(targetVMName, i), Device(targetVMName, j));
  }

  lemma LastDigits(m: nat)
    requires m >= 10
    ensures var i := 10 * (m / 10);
            && 1 <= i <= m && |Decimal(i)| == |Decimal(i + 1)| == |Decimal(m)|
            && Decimal(i) == Decimal(m / 10) + "0" && Decimal(i + 1) == Decimal(m / 10) + "1"
  {}

  lemma VolumesCollide(targetVMName: string, i: nat, j: nat, common: string)
    requires IsLabel(targetVMName) && i <= MAX_INT && j <= MAX_INT
    requires |Decimal(i)| == |Decimal(j)| == |common| + 1 && |targetVMName| + |Decimal(i)| > 51
    requires Decimal(i)[..|common|] == common == Decimal(j)[..|common|]
    ensures VolumeName(DeviceVolume(targetVMName, i)) == VolumeName(DeviceVolume(targetVMName, j))
  {
    hide VolumeName, DeviceVolume, Device, Decimal, IsLabel;
    HardDiskVolume(targetVMName, i);
    HardDiskVolume(targetVMName, j);
    SharedStart(targetVMName, i, common);
    SharedStart(targetVMName, j, common);
    VolumeNamesAgreeIff(Device(targetVMName, i), Device(targetVMName, j));
  }

  lemma SharedStart(targetVMName: string, k: nat, common: string)
    requires |common| <= |Decimal(k)| && Decimal(k)[..|common|] == common && |targetVMName| + |common| >= 48
    ensures |Device(targetVMName, k)| >= 57
    ensures Device(targetVMName, k)[..57] == (targetVMName + ("-harddisk" + common))[..57]
  {
    hide Decimal;
    var a, shared := Device(targetVMName, k), targetVMName + ("-harddisk" + common);
    assert a[..|shared|] == shared;
    assert a[..57] == a[..|shared|][..57];
  }

  /** Hard disks get volumes of different names exactly as long as there is room for all their numbers but
      the last: for two to ten disks, with a target name of up to 50 characters. */
  lemma HardDiskVolumesDifferIff(targetVMName: string, n: nat)
    requires IsLabel(targetVMName) && n <= MAX_INT
    ensures DistinctVolumeNames(HardDisks(targetVMName, n)) <==> n <= 1 || |targetVMName| + |Decimal(n - 1)| <= 51
  {
    var dvs := HardDisks(targetVMName, n);
    hide VolumeName, DeviceVolume, HardDisks, IsLabel;
    if n > 1 {
      if |targetVMName| + |Decimal(n - 1)| <= 51 {
        forall i, j | 0 <= i < j < n
          ensures VolumeName(dvs[i]) != VolumeName(dvs[j])
        {
          VolumesDiffer(targetVMName, n, i + 1, j + 1);
        }
      } else if n - 1 >= 10 {
        LastDigits(n - 1);
        var i := 10 * ((n - 1) / 10);
        VolumesCollide(targetVMName, i, i + 1, Decimal((n - 1) / 10));
        assert VolumeName(dvs[i - 1]) == VolumeName(dvs[i]);
      } else {
        VolumesCollide(targetVMName, 1, 2, "");
        assert VolumeName(dvs[0]) == VolumeName(dvs[1]);
      }
    }
  }

  lemma EveryHardDiskHasItsVolume(targetVMName: string, n: nat, disks: seq<Disk>)
    requires IsLabel(targetVMName) && n <= MAX_INT
    requires Attached([], HardDisks(targetVMName, n), disks)
    ensures (forall d | d in disks :: HasOneVolume(d, VolumesFor(HardDisks(targetVMName, n))))
            <==> n <= 1 || |targetVMName| + |Decimal(n - 1)| <= 51
  {
    hide Attached, HasOneVolume, DistinctVolumeNames, IsLabel, HardDisks;
    HardDiskVolumesDifferIff(targetVMName, n);
    EveryDiskHasItsVolume(HardDisks(targetVMName, n), disks);
  }

  // ---------------------------------------------------------------------------------------------
  // Which hard disks are attached in the order of the devices

  lemma DigitInOrder(x: nat, y: nat)
    requires x <= y < 10
    ensures !Less([Digit(y)], [Digit(x)])
  {
    assert [Digit(y)][1..] == [] == [Digit(x)][1..];
  }

  lemma DigitsInOrder(j: nat, k: nat)
    requires 1 <= j <= k <= 99 && (k <= 9 || 10 <= j)
    ensures !Less(Decimal(k), Decimal(j))
  {
    if k <= 9 {
      DigitInOrder(j, k);
    } else {
      var a, b := Decimal(j), Decimal(k);
      assert Decimal(j / 10) == [Digit(j / 10)] && Decimal(k / 10) == [Digit(k / 10)];
      assert a == [Digit(j / 10), Digit(j % 10)] && b == [Digit(k / 10), Digit(k % 10)];
      assert a[1..] == [Digit(j % 10)] && b[1..] == [Digit(k % 10)];
      if j / 10 == k / 10 {
        DigitInOrder(j % 10, k % 10);
      } else {
        assert a[0] < b[0];
      }
    }
  }

  lemma TenBeforeTwo()
    ensures Decimal(10) == "10" && Decimal(2) == "2" && Less("10", "2")
  {
    assert Decimal(10) == [Digit(1), Digit(0)] == "10";
    assert Decimal(2) == [Digit(2)] == "2";
    assert '1' < '2';
  }

  lemma DashBeforeS()
    ensures Decimal(64) == "64" && Less("-64", "sk2")
  {}

  /** The names of volumes that are not shortened. */
  lemma PlainVolume(targetVMName: string, k: nat)
    requires IsLabel(targetVMName) && k <= MAX_INT && |targetVMName| + |Decimal(k)| <= 51
    ensures VolumeName(DeviceVolume(targetVMName, k)) == "dv-" + (targetVMName + "-harddisk") + Decimal(k)
  {
    HardDiskVolume(targetVMName, k);
    var a := Device(targetVMName, k);
    ShortHasNoSuffix(a);
    hide VolumeName, DeviceVolume, Decimal, Cut, VolumeSuffix, IsLabel;
    RegroupedPrefix("dv-", targetVMName, "-harddisk", Decimal(k));
  }

  lemma RegroupedPrefix(a: string, b: string, c: string, d: string)
    ensures a + (b + (c + d)) == a + (b + c) + d
  {}

  /** Where all are shortened, only the number of digits tells them apart. */
  lemma ShortenedVolume(targetVMName: string, k: nat)
    requires IsLabel(targetVMName) && k <= MAX_INT && |targetVMName| >= 51
    ensures VolumeName(DeviceVolume(targetVMName, k))
            == "dv-" + (targetVMName + "-harddisk")[..57] + ("-" + Decimal(|targetVMName| + |Decimal(k)| + 12))
  {
    HardDiskVolume(targetVMName, k);
    KeptOfDevice(targetVMName, k);
    hide VolumeName, DeviceVolume, Device, Decimal, IsLabel;
    LongVolume(Device(targetVMName, k));
  }

  lemma LongVolume(dv: DVName)
    requires 60 < |dv| <= 96
    ensures VolumeName(dv) == "dv-" + dv[..57] + ("-" + Decimal(|dv| + 3))
  {
    VolumeNameIs(dv);
    hide VolumeName, Decimal;
    RegroupedPrefix("", "dv-", dv[..57], "-" + Decimal(|dv| + 3));
  }

  lemma KeptOfDevice(targetVMName: string, k: nat)
    requires |targetVMName| >= 48
    ensures |Device(targetVMName, k)| >= 57 && Device(targetVMName, k)[..57] == (targetVMName + "-harddisk")[..57]
  {
    hide Decimal;
    assert Device(targetVMName, k) == (targetVMName + "-harddisk") + Decimal(k);
  }

  lemma PlainInOrder(targetVMName: string, i: nat, j: nat)
    requires IsLabel(targetVMName) && |targetVMName| <= 50 && 1 <= i < j <= 9
    ensures !Less(VolumeName(DeviceVolume(targetVMName, j)), VolumeName(DeviceVolume(targetVMName, i)))
  {
    PlainVolume(targetVMName, i);
    PlainVolume(targetVMName, j);
    DigitsInOrder(i, j);
    hide VolumeName, DeviceVolume, Decimal, Less;
    LessAfterPrefix("dv-" + (targetVMName + "-harddisk"), Decimal(j), Decimal(i));
  }

  lemma ShortenedInOrder(targetVMName: string, i: nat, j: nat)
    requires IsLabel(targetVMName) && |targetVMName| >= 51 && 1 <= i < j <= MAX_INT
    ensures !Less(VolumeName(DeviceVolume(targetVMName, j)), VolumeName(DeviceVolume(targetVMName, i)))
  {
    hide VolumeName, DeviceVolume, Decimal, Less;
    ShortenedVolume(targetVMName, i);
    ShortenedVolume(targetVMName, j);
    LongerNumbers(i, j);
    SuffixFits(j);
    hide IsLabel;
    var x, y := |targetVMName| + |Decimal(i)| + 12, |targetVMName| + |Decimal(j)| + 12;
    DigitsInOrder(x, y);
    LessAfterPrefix("dv-" + (targetVMName + "-harddisk")[..57], "-" + Decimal(y), "-" + Decimal(x));
    LessAfterPrefix("-", Decimal(y), Decimal(x));
  }

  /** Already at 50 characters the tenth is shortened, and its name is cut before the last two letters. */
  lemma TenthAtFifty(targetVMName: string)
    requires IsLabel(targetVMName) && |targetVMName| == 50
    ensures VolumeName(DeviceVolume(targetVMName, 10)) == "dv-" + (targetVMName + "-harddi") + "-64"
  {
    hide VolumeName, DeviceVolume, Decimal, IsLabel;
    TenBeforeTwo();
    DashBeforeS();
    HardDiskVolume(targetVMName, 10);
    var a, start := Device(targetVMName, 10), targetVMName + "-harddi";
    assert a == start + "sk10";
    assert a[..57] == start;
    assert "dv-" + (start + "-64") == "dv-" + start + "-64";
  }

  lemma TenthBeforeSecond(targetVMName: string)
    requires IsLabel(targetVMName) && |targetVMName| <= 50
    ensures Less(VolumeName(DeviceVolume(targetVMName, 10)), VolumeName(DeviceVolume(targetVMName, 2)))
  {
    TenBeforeTwo();
    DashBeforeS();
    hide VolumeName, DeviceVolume, Decimal, Less, IsLabel;
    PlainVolume(targetVMName, 2);
    if |targetVMName| <= 49 {
      PlainVolume(targetVMName, 10);
      LessAfterPrefix("dv-" + (targetVMName + "-harddisk"), "10", "2");
    } else {
      TenthAtFifty(targetVMName);
      var start := targetVMName + "-harddi";
      assert "dv-" + (targetVMName + "-harddisk") + "2" == "dv-" + start + "sk2";
      LessAfterPrefix("dv-" + start, "-64", "sk2");
    }
  }

  /** Hard disks are attached in the order of the devices exactly if there are fewer than ten, or if the
      target's name is so long that the volumes of all of them are named by the length of their numbers
      alone. */
  lemma DevicesInOrderIff(targetVMName: string, n: nat, disks: seq<Disk>)
    requires IsLabel(targetVMName) && n <= MAX_INT
    requires Attached([], HardDisks(targetVMName, n), disks)
    ensures disks == DisksFor(HardDisks(targetVMName, n)) <==> n < 10 || |targetVMName| >= 51
  {
    hide IsLabel, Attached, DisksFor, HardDisks, VolumeName, DeviceVolume, Less;
    var dvs := HardDisks(targetVMName, n);
    var made := DisksFor(dvs);
    InDeviceOrderIff(dvs, disks);
    ForEach(dvs);
    if n < 10 || |targetVMName| >= 51 {
      forall i, j | 0 <= i < j < n
        ensures !Less(made[j].name, made[i].name)
      {
        if |targetVMName| >= 51 {
          ShortenedInOrder(targetVMName, i + 1, j + 1);
        } else {
          PlainInOrder(targetVMName, i + 1, j + 1);
        }
      }
    } else {
      TenthBeforeSecond(targetVMName);
      assert Less(made[9].name, made[1].name);
    }
  }

  lemma {:induction false} LessAfterPrefix(prefix: string, a: string, b: string)
    ensures Less(prefix + a, prefix + b) <==> Less(a, b)
  {
    if prefix == [] {
      assert prefix + a == a && prefix + b == b;
    } else {
      assert (prefix + a)[1..] == prefix[1..] + a;
      assert (prefix + b)[1..] == prefix[1..] + b;
      LessAfterPrefix(prefix[1..], a, b);
    }
  }
}
