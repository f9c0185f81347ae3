/** When a CPU pinning is exact (pkg/providers/ovirt/utils/utils.go): a counting argument over a map. */
module CpuPinning {
  import opened Wrappers
  import opened Numerals

  const MIN_INT := -0x8000_0000_0000_0000
  const MAX_INT := 0x7FFF_FFFF_FFFF_FFFF

  datatype VcpuPin = VcpuPin(vcpu: int, cpuSet: string)

  /** strconv.Atoi: a decimal number with an optional sign that fits an int. */
  function Atoi(s: string): Option<int> {
    if s == "" then None
    else
      var digits := if s[0] == '-' || s[0] == '+' then s[1..] else s;
      match ParseDecimal(digits)
      case None => None
      case Some(n) =>
        var value := if s[0] == '-' then 0 - n as int else n;
        if MIN_INT <= value <= MAX_INT then Some(value) else None
  }

  /** A number is digits behind at most one sign, and fits. */
  lemma AtoiReadsNumbers(s: string)
    ensures var digits := if s != "" && (s[0] == '-' || s[0] == '+') then s[1..] else s;
            && (Atoi(s).Some? ==> digits != "" && forall k | 0 <= k < |digits| :: '0' <= digits[k] <= '9')
            && (digits != "" && (forall k | 0 <= k < |digits| :: '0' <= digits[k] <= '9') ==>
                  var n := ParseDecimal(digits);
                  && n.Some?
                  && (s[0] == '-' ==>
                        if n.value <= 0x8000_0000_0000_0000
                        then Atoi(s) == Some(0 - n.value as int) else Atoi(s) == None)
                  && (s[0] != '-' ==>
                        if n.value <= 0x7FFF_FFFF_FFFF_FFFF then Atoi(s) == Some(n.value) else Atoi(s) == None))
  {
    ParsesIff(if s != "" && (s[0] == '-' || s[0] == '+') then s[1..] else s);
  }

  /** So a range or a list of CPUs is none. */
  lemma RangesAreNoNumbers(s: string, k: nat)
    requires 0 < k < |s| && !('0' <= s[k] <= '9')
    ensures Atoi(s) == None
  {
    AtoiReadsNumbers(s);
    assert s[1..][k - 1] == s[k];
  }

  function Itoa(n: int): string {
    if n < 0 then "-" + Decimal(-n) else Decimal(n)
  }

  /** What is printed is read back, with or without a plus sign, unless it does not fit an int. */
  lemma AtoiReadsItoa(n: int)
    ensures Atoi(Itoa(n)) == if MIN_INT <= n <= MAX_INT then Some(n) else None
    ensures n >= 0 ==> Atoi("+" + Itoa(n)) == Atoi(Itoa(n))
  {
    if n < 0 {
      assert Itoa(n)[1..] == Decimal(-n);
      DecimalRoundTrip(-n);
    } else {
      assert ("+" + Itoa(n))[1..] == Decimal(n);
      DecimalRoundTrip(n);
    }
  }

  /** Every CPU set is a single number, and no two are the same one. */
  ghost predicate Exact(pins: seq<VcpuPin>) {
    && (forall pin | pin in pins :: Atoi(pin.cpuSet).Some?)
    && forall i, j | 0 <= i < j < |pins| :: Atoi(pins[i].cpuSet) != Atoi(pins[j].cpuSet)
  }

  ghost function Pinned(pins: seq<VcpuPin>): set<int> {
    set pin | pin in pins && Atoi(pin.cpuSet).Some? :: Atoi(pin.cpuSet).value
  }

  lemma PinnedOfOneMore(pins: seq<VcpuPin>, pin: VcpuPin)
    ensures Pinned(pins + [pin]) == Pinned(pins) + if Atoi(pin.cpuSet).Some? then {Atoi(pin.cpuSet).value} else {}
    ensures Exact(pins + [pin])
            <==> Exact(pins) && Atoi(pin.cpuSet).Some? && Atoi(pin.cpuSet).value !in Pinned(pins)
  {
    var all := pins + [pin];
    assert forall p :: p in all <==> p in pins || p == pin;
    assert all[|pins|] == pin && forall i | 0 <= i < |pins| :: all[i] == pins[i];
    if Atoi(pin.cpuSet).Some? && Atoi(pin.cpuSet).value in Pinned(pins) {
      var p :| p in pins && Atoi(p.cpuSet) == Atoi(pin.cpuSet);
      var i :| 0 <= i < |pins| && pins[i] == p;
      assert Atoi(all[i].cpuSet) == Atoi(all[|pins|].cpuSet);
    }
  }

  /** As many map entries as pins means that every set is one CPU and no CPU is shared. */
  method IsCPUPinningExact(vcpuPins: Option<seq<VcpuPin>>) returns (exact: bool)
    ensures exact <==> vcpuPins.Some? && Exact(vcpuPins.value)
  {
    if vcpuPins.None? {
      return false;
    }
    var pins := vcpuPins.value;
    var pinMapping: map<int, int> := map[];
    assert pins[..0] == [];
    for i := 0 to |pins|
      invariant Counted(pins[..i], pinMapping)
    {
      var pin := pins[i];
      assert pins[..i + 1] == pins[..i] + [pin];
      CountedNext(pins[..i], pinMapping, pin);
      hide Counted;
      var cpuID := Atoi(pin.cpuSet);
      if cpuID.Some? {
        pinMapping := pinMapping[cpuID.value := pin.vcpu];
      }
    }
    assert pins[..|pins|] == pins;
    return |pinMapping| == |pins|;
  }

  /** The map holds the CPUs pinned so far: as many as there are pins if the pinning is exact, and fewer
      otherwise. */
  ghost predicate Counted(pins: seq<VcpuPin>, pinMapping: map<int, int>) {
    pinMapping.Keys == Pinned(pins) && |pinMapping| <= |pins| && (|pinMapping| == |pins| <==> Exact(pins))
  }

  lemma CountedNext(pins: seq<VcpuPin>, pinMapping: map<int, int>, pin: VcpuPin)
    requires Counted(pins, pinMapping)
    ensures Atoi(pin.cpuSet).None? ==> Counted(pins + [pin], pinMapping)
    ensures Atoi(pin.cpuSet).Some? ==> Counted(pins + [pin], pinMapping[Atoi(pin.cpuSet).value := pin.vcpu])
  {
    PinnedOfOneMore(pins, pin);
    hide Atoi, Pinned, Exact;
    assert |pinMapping| == |pinMapping.Keys|;
    if Atoi(pin.cpuSet).Some? {
      var cpuID := Atoi(pin.cpuSet).value;
      var after := pinMapping[cpuID := pin.vcpu];
      assert after.Keys == pinMapping.Keys + {cpuID};
      assert |after| == |after.Keys|;
    }
  }

  /** Only the CPUs are counted: one vCPU pinned to two of them is exact as well. */
  lemma OneVcpuTwiceIsExact(vcpu: int)
    ensures Exact([VcpuPin(vcpu, "1"), VcpuPin(vcpu, "2")])
  {
    assert Atoi("1") == Some(1) && Atoi("2") == Some(2);
  }
}
