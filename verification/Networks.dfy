/** oVirt NICs become interfaces and networks (pkg/providers/ovirt/mapper/mapper.go), and the validator
    counts the pod networks beforehand (network-mapping-validator.go). */
module Networks {
  import opened Wrappers
  import opened Mappings
  import opened Names
  import StorageMapping
  import opened Validation

  const NETWORK_TYPE_MULTUS := "multus"
  const NETWORK_TYPE_POD := "pod"
  const NETWORK_MULTIPLE_POD_TARGETS_ID := "network.pod.multiple"

  datatype NetworkTarget = NetworkTarget(name: string, namespace: Option<string>, kind: Option<string>)

  type NetworkItem = Item<NetworkTarget>

  /** The mapper reads the network of every profile; a name the source leaves out reads as empty. */
  datatype VnicProfile = VnicProfile(id: Option<string>, name: Option<string>, networkName: string, sriov: bool)

  datatype Nic = Nic(name: string, mac: string, model: string, profile: Option<VnicProfile>)

  /** The type of a target: pod unless it says otherwise; None for a type the mapper does not know. */
  datatype NetworkType = Pod | Multus

  function TypeOf(target: NetworkTarget): Option<NetworkType> {
    if target.kind.None? || target.kind.value == NETWORK_TYPE_POD then Some(Pod)
    else if target.kind.value == NETWORK_TYPE_MULTUS then Some(Multus)
    else None
  }

  /** A network is attached to the pod's, to a Multus network, to both or to neither. */
  datatype Network = Network(name: string, pod: bool, multus: Option<string>) {
    function Type(): Option<NetworkType> {
      if multus.Some? then Some(Multus) else if pod then Some(Pod) else None
    }
  }

  datatype Binding = NoBinding | Bridge | SRIOV | Masquerade

  datatype Interface = Interface(name: string, mac: string, model: string, binding: Binding)

  // ---------------------------------------------------------------------------------------------
  // One NIC's network

  function GetNetworkMappingName(networkName: string, vnicProfileName: string): string {
    networkName + "/" + vnicProfileName
  }

  predicate IsFor(item: NetworkItem, profile: VnicProfile) {
    || item.source.name == Some(GetNetworkMappingName(profile.networkName, profile.name.GetOr("")))
    || item.source.id == Some(profile.id.GetOr(""))
  }

  function MultusName(target: NetworkTarget, namespace: string, sriov: bool): string {
    if sriov then target.namespace.GetOr(namespace) + "/" + target.name else target.name
  }

  /** The Multus network of the last item for the profile that has one. */
  function LastMultus(items: seq<NetworkItem>, profile: VnicProfile, namespace: string): Option<string> {
    if items == [] then None
    else
      var last := items[|items| - 1];
      if IsFor(last, profile) && TypeOf(last.target) == Some(Multus)
      then Some(MultusName(last.target, namespace, profile.sriov))
      else LastMultus(items[..|items| - 1], profile, namespace)
  }

  /** The item is for the profile: by the names of its network and itself, or by its ID. */
  ghost predicate Concerns(item: NetworkItem, profile: VnicProfile) {
    || item.source.name == Some(profile.networkName + "/" + profile.name.GetOr(""))
    || item.source.id == Some(profile.id.GetOr(""))
  }

  /** What the items for a profile make of its network. */
  ghost predicate IsAsMapped(pod: bool, multus: Option<string>, items: seq<NetworkItem>, profile: VnicProfile,
                             namespace: string)
  {
    && (pod <==> exists item | item in items :: Concerns(item, profile)
                                                && (item.target.kind.None? || item.target.kind == Some("pod")))
    && (multus.None? <==> forall item | item in items && Concerns(item, profile) :: item.target.kind != Some("multus"))
    && (multus.Some? ==>
          exists j | 0 <= j < |items| && Concerns(items[j], profile) && items[j].target.kind == Some("multus") ::
            && (forall k | j < k < |items| && Concerns(items[k], profile) :: items[k].target.kind != Some("multus"))
            && var target := items[j].target;
               multus.value
               == if !profile.sriov then target.name
                  else (if target.namespace.Some? then target.namespace.value else namespace) + "/" + target.name)
  }

  lemma {:induction false} MultusIsLast(items: seq<NetworkItem>, profile: VnicProfile, namespace: string)
    returns (j: int)
    ensures var multus := LastMultus(items, profile, namespace);
            if multus.None?
            then forall k | 0 <= k < |items| && Concerns(items[k], profile) :: items[k].target.kind != Some("multus")
            else
              && 0 <= j < |items| && Concerns(items[j], profile) && items[j].target.kind == Some("multus")
              && (forall k | j < k < |items| && Concerns(items[k], profile) :: items[k].target.kind != Some("multus"))
              && multus.value == MultusName(items[j].target, namespace, profile.sriov)
  {
    j := |items| - 1;
    if items != [] {
      var init, last := items[..j], items[j];
      assert IsFor(last, profile) <==> Concerns(last, profile);
      assert TypeOf(last.target) == Some(Multus) <==> last.target.kind == Some("multus");
      hide MultusName, IsFor, Concerns, TypeOf;
      if !(IsFor(last, profile) && TypeOf(last.target) == Some(Multus)) {
        j := MultusIsLast(init, profile, namespace);
        assert forall k | 0 <= k < |init| :: items[k] == init[k];
      }
    }
  }

  /** That is what the mapper reads off them. */
  lemma MappedRight(items: seq<NetworkItem>, profile: VnicProfile, namespace: string)
    ensures IsAsMapped(HasPod(items, profile), LastMultus(items, profile, namespace), items, profile, namespace)
  {
    var j := MultusIsLast(items, profile, namespace);
    assert forall item :: IsFor(item, profile) <==> Concerns(item, profile);
    assert forall item: NetworkItem ::
        TypeOf(item.target) == Some(Pod) <==> item.target.kind.None? || item.target.kind == Some("pod");
    hide IsFor, Concerns, TypeOf, LastMultus;
  }

  predicate HasPod(items: seq<NetworkItem>, profile: VnicProfile) {
    exists item | item in items :: IsFor(item, profile) && TypeOf(item.target) == Some(Pod)
  }

  method MapNetworkType(mapping: NetworkItem, network: Network, sriov: bool, namespace: string) returns (r: Network)
    ensures r.name == network.name
    ensures r.pod == (network.pod || TypeOf(mapping.target) == Some(Pod))
    ensures r.multus == if TypeOf(mapping.target) == Some(Multus)
                        then Some(MultusName(mapping.target, namespace, sriov))
                        else network.multus
  {
    r := network;
    if mapping.target.kind.None? || mapping.target.kind.value == NETWORK_TYPE_POD {
      r := r.(pod := true);
    } else if mapping.target.kind.value == NETWORK_TYPE_MULTUS {
      var name;
      if sriov {
        var ns := namespace;
        if mapping.target.namespace.Some? {
          ns := mapping.target.namespace.value;
        }
        name := ns + "/" + mapping.target.name;
      } else {
        name := mapping.target.name;
      }
      r := r.(multus := Some(name));
    }
  }

  /** Every item for the profile is applied, not just the first. */
  method GetNetworkForNic(profile: VnicProfile, items: seq<NetworkItem>, namespace: string) returns (network: Network)
    ensures network.pod == HasPod(items, profile)
    ensures network.multus == LastMultus(items, profile, namespace)
    ensures IsAsMapped(network.pod, network.multus, items, profile, namespace)
  {
    MappedRight(items, profile, namespace);
    hide IsAsMapped;
    network := Network("", false, None);
    var nicMappingName := GetNetworkMappingName(profile.networkName, profile.name.GetOr(""));
    for i := 0 to |items|
      invariant network.pod == HasPod(items[..i], profile)
      invariant network.multus == LastMultus(items[..i], profile, namespace)
    {
      var mapping := items[i];
      assert items[..i + 1] == items[..i] + [mapping];
      assert mapping in items[..i + 1] && forall m | m in items[..i] :: m in items[..i + 1];
      if mapping.source.name.Some? && nicMappingName == mapping.source.name.value {
        network := MapNetworkType(mapping, network, profile.sriov, namespace);
      }
      if mapping.source.id.Some? && profile.id.GetOr("") == mapping.source.id.value {
        network := MapNetworkType(mapping, network, profile.sriov, namespace);
      }
    }
    assert items[..|items|] == items;
  }

  // ---------------------------------------------------------------------------------------------
  // All NICs

  function NormalName(name: string): string {
    match NormalizeName(name)
    case Success(n) => n
    case Failure(_) => ""
  }

  /** The NICs that have a profile; the mapper skips the others. */
  function Profiled(nics: seq<Nic>): (r: seq<Nic>)
    ensures forall nic | nic in r :: nic.profile.Some?
  {
    if nics == [] then []
    else
      var last := nics[|nics| - 1];
      Profiled(nics[..|nics| - 1]) + if last.profile.Some? then [last] else []
  }

  /** They are those, in their order. */
  lemma {:induction false} ProfiledAre(nics: seq<Nic>)
    ensures forall nic :: nic in Profiled(nics) <==> nic in nics && nic.profile.Some?
    ensures (forall nic | nic in nics :: nic.profile.Some?) ==> Profiled(nics) == nics
  {
    if nics != [] {
      var init, last := nics[..|nics| - 1], nics[|nics| - 1];
      assert nics == init + [last];
      assert last in nics;
      ProfiledAre(init);
    }
  }

  lemma {:induction false} ProfiledOfConcat(a: seq<Nic>, b: seq<Nic>)
    ensures Profiled(a + b) == Profiled(a) + Profiled(b)
  {
    if b == [] {
      assert a + b == a;
    } else {
      assert (a + b)[..|a + b| - 1] == a + b[..|b| - 1];
      ProfiledOfConcat(a, b[..|b| - 1]);
    }
  }

  ghost predicate IsNetworkOf(network: Network, nic: Nic, items: seq<NetworkItem>, namespace: string) {
    && nic.profile.Some?
    && network.name == NormalName(nic.name)
    && network.pod == HasPod(items, nic.profile.value)
    && network.multus == LastMultus(items, nic.profile.value, namespace)
  }

  method MapNetworks(nics: seq<Nic>, items: seq<NetworkItem>, namespace: string) returns (networks: seq<Network>)
    ensures |networks| == |Profiled(nics)|
    ensures forall k | 0 <= k < |networks| :: IsNetworkOf(networks[k], Profiled(nics)[k], items, namespace)
  {
    networks := [];
    for i := 0 to |nics|
      invariant |networks| == |Profiled(nics[..i])|
      invariant forall k | 0 <= k < |networks| :: IsNetworkOf(networks[k], Profiled(nics[..i])[k], items, namespace)
    {
      var nic := nics[i];
      assert nics[..i + 1][..i] == nics[..i];
      if nic.profile.None? {
        assert Profiled(nics[..i + 1]) == Profiled(nics[..i]);
        continue;
      }
      var network := GetNetworkForNic(nic.profile.value, items, namespace);
      network := network.(name := NormalName(nic.name));
      networks := networks + [network];
    }
    assert nics[..|nics|] == nics;
  }

  /** The type of the last network of that name which has one. */
  function LastType(networks: seq<Network>, name: string): Option<NetworkType> {
    if networks == [] then None
    else
      var last := networks[|networks| - 1];
      if last.name == name && last.Type().Some? then last.Type() else LastType(networks[..|networks| - 1], name)
  }

  method MapNetworksToTypes(networks: seq<Network>) returns (types: map<string, NetworkType>)
    ensures forall name :: (if name in types then Some(types[name]) else None) == LastType(networks, name)
  {
    types := map[];
    for i := 0 to |networks|
      invariant forall name :: (if name in types then Some(types[name]) else None) == LastType(networks[..i], name)
    {
      assert networks[..i + 1][..i] == networks[..i];
      var network := networks[i];
      if network.multus.Some? {
        types := types[network.name := Multus];
      } else if network.pod {
        types := types[network.name := Pod];
      }
    }
    assert networks[..|networks|] == networks;
  }

  function BindingFor(kind: Option<NetworkType>, sriov: bool): Binding {
    match kind
    case Some(Multus) => if sriov then SRIOV else Bridge
    case Some(Pod) => Masquerade
    case None => NoBinding
  }

  ghost predicate IsInterfaceOf(nic: Interface, source: Nic, types: map<string, NetworkType>) {
    && source.profile.Some?
    && nic.name == NormalName(source.name) && nic.mac == source.mac
    && nic.model == (if source.profile.value.sriov then "" else source.model)
    && nic.binding == BindingFor(if nic.name in types then Some(types[nic.name]) else None, source.profile.value.sriov)
  }

  method MapNics(nics: seq<Nic>, networkToType: map<string, NetworkType>) returns (kubevirtNics: seq<Interface>)
    ensures |kubevirtNics| == |Profiled(nics)|
    ensures forall k | 0 <= k < |kubevirtNics| :: IsInterfaceOf(kubevirtNics[k], Profiled(nics)[k], networkToType)
  {
    kubevirtNics := [];
    for i := 0 to |nics|
      invariant |kubevirtNics| == |Profiled(nics[..i])|
      invariant forall k | 0 <= k < |kubevirtNics| ::
                IsInterfaceOf(kubevirtNics[k], Profiled(nics[..i])[k], networkToType)
    {
      var nic := nics[i];
      assert nics[..i + 1][..i] == nics[..i];
      if nic.profile.None? {
        assert Profiled(nics[..i + 1]) == Profiled(nics[..i]);
        continue;
      }
      var sriov := nic.profile.value.sriov;
      var name := NormalName(nic.name);
      var binding := NoBinding;
      if name in networkToType {
        match networkToType[name]
        case Multus => binding := if sriov then SRIOV else Bridge;
        case Pod => binding := Masquerade;
      }
      kubevirtNics := kubevirtNics + [Interface(name, nic.mac, if sriov then "" else nic.model, binding)];
    }
    assert nics[..|nics|] == nics;
  }

  method MapVMNetworks(nics: seq<Nic>, items: seq<NetworkItem>, namespace: string)
    returns (networks: seq<Network>, interfaces: seq<Interface>)
    ensures LineUp(nics, items, namespace, networks, interfaces)
    ensures |networks| == |interfaces| == |Profiled(nics)|
    ensures forall k | 0 <= k < |networks| ::
              && networks[k].name == interfaces[k].name
              && (match NormalizeName(Profiled(nics)[k].name)
                  case Success(name) => networks[k].name == name
                  case Failure(_) => networks[k].name == "")
              && IsAsMapped(networks[k].pod, networks[k].multus, items, Profiled(nics)[k].profile.value, namespace)
    ensures AgreeByName(networks) ==>
              forall k | 0 <= k < |networks| ::
                BoundRight(interfaces[k].binding, networks[k], Profiled(nics)[k].profile.value.sriov)
  {
    networks := MapNetworks(nics, items, namespace);
    var networkToType := MapNetworksToTypes(networks);
    interfaces := MapNics(nics, networkToType);
    forall k | 0 <= k < |networks|
      ensures IsAsMapped(networks[k].pod, networks[k].multus, items, Profiled(nics)[k].profile.value, namespace)
    {
      MappedRight(items, Profiled(nics)[k].profile.value, namespace);
    }
    hide IsAsMapped, IsNetworkOf;
    if AgreeByName(networks) {
      AllBoundRight(nics, items, namespace, networks, interfaces);
    }
  }

  /** Networks of one name are attached alike. Different names are a special case. */
  ghost predicate AgreeByName(networks: seq<Network>) {
    forall i, j | 0 <= i < j < |networks| && networks[i].name == networks[j].name ::
      && (networks[i].multus.Some? <==> networks[j].multus.Some?)
      && (networks[i].multus.None? ==> (networks[i].pod <==> networks[j].pod))
  }

  /** The binding for a network: a Multus network is bridged, or passed through by SR-IOV, and the pod's
      is masqueraded. */
  ghost predicate BoundRight(binding: Binding, network: Network, sriov: bool) {
    && (binding == SRIOV <==> network.multus.Some? && sriov)
    && (binding == Bridge <==> network.multus.Some? && !sriov)
    && (binding == Masquerade <==> network.multus.None? && network.pod)
    && (binding == NoBinding <==> network.multus.None? && !network.pod)
  }

  /** One network and one interface for each NIC with a profile, in the order of the NICs, under the same
      name; the binding is the one for the last typed network of that name. */
  ghost predicate LineUp(nics: seq<Nic>, items: seq<NetworkItem>, namespace: string, networks: seq<Network>,
                         interfaces: seq<Interface>)
  {
    && |networks| == |interfaces| == |Profiled(nics)|
    && forall k | 0 <= k < |networks| ::
         var nic := Profiled(nics)[k];
         && IsNetworkOf(networks[k], nic, items, namespace)
         && interfaces[k].name == networks[k].name && interfaces[k].mac == nic.mac
         && interfaces[k].model == (if nic.profile.value.sriov then "" else nic.model)
         && interfaces[k].binding == BindingFor(LastType(networks, networks[k].name), nic.profile.value.sriov)
  }

  lemma AllBoundRight(nics: seq<Nic>, items: seq<NetworkItem>, namespace: string, networks: seq<Network>,
                      interfaces: seq<Interface>)
    requires LineUp(nics, items, namespace, networks, interfaces) && AgreeByName(networks)
    ensures forall k | 0 <= k < |networks| ::
              BoundRight(interfaces[k].binding, networks[k], Profiled(nics)[k].profile.value.sriov)
  {
    hide IsNetworkOf, Profiled, LastType;
    forall k | 0 <= k < |networks|
      ensures BoundRight(interfaces[k].binding, networks[k], Profiled(nics)[k].profile.value.sriov)
    {
      LastTypeIs(networks, k);
    }
  }

  // ---------------------------------------------------------------------------------------------
  // Bindings fit

  ghost predicate BindingFits(nic: Nic, network: Network, nicInterface: Interface)
    requires nic.profile.Some?
  {
    nicInterface.binding == BindingFor(network.Type(), nic.profile.value.sriov)
  }

  ghost predicate SameNameSameType(networks: seq<Network>) {
    forall i, j | 0 <= i < j < |networks| && networks[i].name == networks[j].name ::
      networks[i].Type() == networks[j].Type()
  }

  lemma {:induction false} LastTypeIs(networks: seq<Network>, k: nat)
    requires k < |networks| && SameNameSameType(networks)
    ensures LastType(networks, networks[k].name) == networks[k].Type()
  {
    var n := |networks| - 1;
    var init := networks[..n];
    if k < n {
      assert SameNameSameType(init);
      LastTypeIs(init, k);
    } else if networks[n].Type().None? {
      NoType(init, networks[n].name);
    }
  }

  lemma {:induction false} NoType(networks: seq<Network>, name: string)
    requires forall i | 0 <= i < |networks| && networks[i].name == name :: networks[i].Type().None?
    ensures LastType(networks, name) == None
  {
    if networks != [] {
      NoType(networks[..|networks| - 1], name);
    }
  }

  lemma BindingTellsType(a: Option<NetworkType>, b: Option<NetworkType>, sriov: bool)
    requires BindingFor(a, sriov) == BindingFor(b, sriov)
    ensures a == b
  {
  }

  /** Every binding fits its network exactly when networks of the same name are of the same type; so it
      does when the names are distinct. */
  lemma BindingsFit(nics: seq<Nic>, items: seq<NetworkItem>, namespace: string, networks: seq<Network>,
                    interfaces: seq<Interface>)
    requires LineUp(nics, items, namespace, networks, interfaces)
    ensures (forall k | 0 <= k < |networks| :: BindingFits(Profiled(nics)[k], networks[k], interfaces[k]))
            <==> SameNameSameType(networks)
  {
    hide LastType, IsNetworkOf, Profiled;
    if SameNameSameType(networks) {
      forall k | 0 <= k < |networks|
        ensures BindingFits(Profiled(nics)[k], networks[k], interfaces[k])
      {
        LastTypeIs(networks, k);
      }
    }
    if forall k | 0 <= k < |networks| :: BindingFits(Profiled(nics)[k], networks[k], interfaces[k]) {
      forall i, j | 0 <= i < j < |networks| && networks[i].name == networks[j].name
        ensures networks[i].Type() == networks[j].Type()
      {
        BindingTellsType(LastType(networks, networks[i].name), networks[i].Type(),
                         Profiled(nics)[i].profile.value.sriov);
        BindingTellsType(LastType(networks, networks[j].name), networks[j].Type(),
                         Profiled(nics)[j].profile.value.sriov);
      }
    }
  }

  // ---------------------------------------------------------------------------------------------
  // Pod networks

  function ItemAt(index: map<string, NetworkItem>, key: Option<string>): Option<NetworkItem> {
    if key.Some? && key.value in index then Some(index[key.value]) else None
  }

  predicate IsPod(item: Option<NetworkItem>) {
    item.Some? && TypeOf(item.value.target) == Some(Pod)
  }

  predicate CountsAsPod(nic: Nic, byID: map<string, NetworkItem>, byName: map<string, NetworkItem>) {
    nic.profile.Some? && (IsPod(ItemAt(byID, nic.profile.value.id)) || IsPod(ItemAt(byName, nic.profile.value.name)))
  }

  function PodCount(nics: seq<Nic>, byID: map<string, NetworkItem>, byName: map<string, NetworkItem>): nat {
    if nics == [] then 0
    else
      PodCount(nics[..|nics| - 1], byID, byName) + if CountsAsPod(nics[|nics| - 1], byID, byName) then 1 else 0
  }

  method GetPodNetworks(nics: seq<Nic>, byID: map<string, NetworkItem>, byName: map<string, NetworkItem>)
    returns (podNetworks: seq<string>)
    ensures |podNetworks| == PodCount(nics, byID, byName)
  {
    podNetworks := [];
    for i := 0 to |nics|
      invariant |podNetworks| == PodCount(nics[..i], byID, byName)
    {
      assert nics[..i + 1][..i] == nics[..i];
      var nic := nics[i];
      if nic.profile.Some? {
        var profile := nic.profile.value;
        if profile.id.Some? && profile.id.value in byID {
          var item := byID[profile.id.value];
          if item.target.kind.None? || item.target.kind.value == NETWORK_TYPE_POD {
            podNetworks := podNetworks + [StorageMapping.ToLoggableID(item.source.id, item.source.name)];
            continue;
          }
        }
        if profile.name.Some? && profile.name.value in byName {
          var item := byName[profile.name.value];
          if item.target.kind.None? || item.target.kind.value == NETWORK_TYPE_POD {
            podNetworks := podNetworks + [StorageMapping.ToLoggableID(item.source.id, item.source.name)];
          }
        }
      }
    }
    assert nics[..|nics|] == nics;
  }

  /** The check on the number of pod networks. */
  method CheckPodNetworks(nics: seq<Nic>, byID: map<string, NetworkItem>, byName: map<string, NetworkItem>)
    returns (failures: seq<CheckFailure>)
    ensures failures == [] <==> PodCount(nics, byID, byName) <= 1
    ensures failures != [] ==>
              |failures| == 1 && failures[0].id == "network.pod.multiple" && failures[0].message != ""
  {
    failures := [];
    var podNetworks := GetPodNetworks(nics, byID, byName);
    if |podNetworks| > 1 {
      failures := [CheckFailure(NETWORK_MULTIPLE_POD_TARGETS_ID,
                                "There are more than one source networks mapped to a pod network")];
    }
  }

  // ---------------------------------------------------------------------------------------------
  // What the count is worth

  ghost predicate CountedRight(nic: Nic, items: seq<NetworkItem>)
    requires nic.profile.Some?
  {
    CountsAsPod(nic, IndexByID(items), IndexByName(items)) <==> HasPod(items, nic.profile.value)
  }

  function LastFor(items: seq<NetworkItem>, profile: VnicProfile): Option<NetworkItem> {
    if profile.id.Some? then LastByID(items, profile.id.value) else None
  }

  function LastUnder(items: seq<NetworkItem>, profile: VnicProfile): Option<NetworkItem> {
    if profile.name.Some? then LastByName(items, profile.name.value) else None
  }

  /** The two indexes hold the last items of the list. */
  lemma CountsByLastItems(nic: Nic, items: seq<NetworkItem>)
    requires nic.profile.Some?
    ensures var profile := nic.profile.value;
            && (CountsAsPod(nic, IndexByID(items), IndexByName(items))
                <==> IsPod(LastFor(items, profile)) || IsPod(LastUnder(items, profile)))
            && (IsPod(LastFor(items, profile)) ==> HasPod(items, profile))
  {
    var profile := nic.profile.value;
    if profile.id.Some? {
      IndexByIDIsLast(items, profile.id.value);
      LastFinds(items, profile.id.value);
    }
    if profile.name.Some? {
      IndexByNameIsLast(items, profile.name.value);
    }
  }

  /** Names must have the format 'network/profile', and a profile's name has no slash. So the validator
      counts a NIC as the mapper maps it exactly when the last item with its profile's ID is for the pod,
      or no item for the profile is. */
  lemma CountedRightForQualifiedNames(nic: Nic, items: seq<NetworkItem>)
    requires nic.profile.Some? && (nic.profile.value.name.Some? ==> '/' !in nic.profile.value.name.value)
    requires forall item | item in items && item.source.name.Some? :: '/' in item.source.name.value
    ensures CountedRight(nic, items) <==>
            || IsPod(LastFor(items, nic.profile.value))
            || forall item | item in items && IsFor(item, nic.profile.value) :: TypeOf(item.target) != Some(Pod)
  {
    CountsByLastItems(nic, items);
    if nic.profile.value.name.Some? {
      IndexByNameIsLast(items, nic.profile.value.name.value);
    }
  }

  /** A mapping by ID only, with one item for each ID. */
  ghost predicate ByUniqueIDs(items: seq<NetworkItem>) {
    && (forall item | item in items :: item.source.name.None?)
    && forall i, j | 0 <= i < j < |items| && items[i].source.id.Some? :: items[i].source.id != items[j].source.id
  }

  /** With such a mapping a NIC is counted right unless its profile has no ID and an item with the empty
      one is for the pod. */
  lemma UniqueIDsCountRight(nic: Nic, items: seq<NetworkItem>)
    requires ByUniqueIDs(items) && nic.profile.Some?
    ensures CountedRight(nic, items) <==>
            || nic.profile.value.id.Some?
            || forall item | item in items && item.source.id == Some("") :: TypeOf(item.target) != Some(Pod)
  {
    CountsByLastItems(nic, items);
    NoNames(items);
    var profile := nic.profile.value;
    if profile.name.Some? {
      IndexByNameIsLast(items, profile.name.value);
    }
    if profile.id.Some? {
      LastFinds(items, profile.id.value);
      if item :| item in items && item.source.id == profile.id {
        OnlyOneWithID(items, profile.id.value, item);
        LastOfUnique(items, profile.id.value, item);
      }
    }
  }

  lemma OnlyOneWithID(items: seq<NetworkItem>, id: string, item: NetworkItem)
    requires ByUniqueIDs(items) && item in items && item.source.id == Some(id)
    ensures forall other | other in items && other.source.id == Some(id) :: other == item
  {
    forall other | other in items && other.source.id == Some(id)
      ensures other == item
    {
      var i :| 0 <= i < |items| && items[i] == item;
      var j :| 0 <= j < |items| && items[j] == other;
    }
  }

  function PodNetworks(networks: seq<Network>): nat {
    if networks == [] then 0
    else PodNetworks(networks[..|networks| - 1]) + if networks[|networks| - 1].pod then 1 else 0
  }

  lemma NoNames(items: seq<NetworkItem>)
    requires forall item | item in items :: item.source.name.None?
    ensures IndexByName(items) == map[]
  {
    forall name | name in IndexByName(items)
      ensures false
    {
      IndexByNameIsLast(items, name);
    }
  }

  ghost predicate AreNetworksOf(networks: seq<Network>, nics: seq<Nic>, items: seq<NetworkItem>, namespace: string) {
    && |networks| == |Profiled(nics)|
    && forall k | 0 <= k < |networks| :: IsNetworkOf(networks[k], Profiled(nics)[k], items, namespace)
  }

  /** If every NIC is counted right, the validator counts as many pod networks as the mapper makes. */
  lemma {:induction false} PodNetworksAreCounted(nics: seq<Nic>, items: seq<NetworkItem>, namespace: string,
                                                 networks: seq<Network>)
    requires forall nic | nic in nics && nic.profile.Some? :: CountedRight(nic, items)
    requires AreNetworksOf(networks, nics, items, namespace)
    ensures PodNetworks(networks) == PodCount(nics, IndexByID(items), IndexByName(items))
  {
    if nics != [] {
      hide IndexByID, IndexByName, HasPod, LastMultus, CountsAsPod;
      var init, last := nics[..|nics| - 1], nics[|nics| - 1];
      assert nics == init + [last];
      assert last in nics && forall nic | nic in init :: nic in nics;
      if last.profile.Some? {
        assert CountedRight(last, items);
        var n := |networks| - 1;
        assert Profiled(nics)[..n] == Profiled(init);
        assert Profiled(nics)[n] == last;
        forall k | 0 <= k < n
          ensures IsNetworkOf(networks[..n][k], Profiled(init)[k], items, namespace)
        {
          assert networks[..n][k] == networks[k] && Profiled(init)[k] == Profiled(nics)[k];
        }
        PodNetworksAreCounted(init, items, namespace, networks[..n]);
      } else {
        assert Profiled(nics) == Profiled(init);
        NotCounted(last, items);
        PodNetworksAreCounted(init, items, namespace, networks);
      }
    }
  }

  lemma NotCounted(nic: Nic, items: seq<NetworkItem>)
    requires nic.profile.None?
    ensures !CountsAsPod(nic, IndexByID(items), IndexByName(items))
  {
  }

  /** So then the check passes exactly when at most one pod network is made. With a mapping by unique IDs
      that is so whenever the profiles have IDs, or no item has the empty one. */
  lemma PassedMeansOnePodNetwork(nics: seq<Nic>, items: seq<NetworkItem>, namespace: string, networks: seq<Network>,
                                 failures: seq<CheckFailure>)
    requires ByUniqueIDs(items)
    requires (forall nic | nic in nics && nic.profile.Some? :: nic.profile.value.id.Some?)
             || forall item | item in items :: item.source.id != Some("")
    requires AreNetworksOf(networks, nics, items, namespace)
    requires failures == [] <==> PodCount(nics, IndexByID(items), IndexByName(items)) <= 1
    ensures failures == [] <==> PodNetworks(networks) <= 1
  {
    forall nic | nic in nics && nic.profile.Some?
      ensures CountedRight(nic, items)
    {
      UniqueIDsCountRight(nic, items);
    }
    PodNetworksAreCounted(nics, items, namespace, networks);
  }

  /** A mapping by name is not counted at all: the index is keyed by network and profile, and looked up
      by the profile. */
  lemma NamesAreNotCounted(nic: Nic, items: seq<NetworkItem>)
    requires nic.profile.Some? && nic.profile.value.name.Some? && '/' !in nic.profile.value.name.value
    requires forall item | item in items ::
               item.source.id.None? && (item.source.name.Some? ==> '/' in item.source.name.value)
    ensures !CountsAsPod(nic, IndexByID(items), IndexByName(items))
  {
    if nic.profile.value.id.Some? {
      IndexByIDIsLast(items, nic.profile.value.id.value);
      LastFinds(items, nic.profile.value.id.value);
    }
    IndexByNameIsLast(items, nic.profile.value.name.value);
  }

  /** Two NICs on one network, mapped by name to the pod network: the mapper makes two pod networks, and
      the check passes, as the validator counts none. */
  lemma TwoPodNetworksPass(profile: VnicProfile, namespace: string, networks: seq<Network>)
    requires profile.name.Some? && '/' !in profile.name.value
    requires AreNetworksOf(networks, TwoNics(profile), [PodByName(profile)], namespace)
    ensures PodNetworks(networks) == 2
    ensures PodCount(TwoNics(profile), IndexByID([PodByName(profile)]), IndexByName([PodByName(profile)])) == 0
  {
    var items, nics := [PodByName(profile)], TwoNics(profile);
    assert GetNetworkMappingName(profile.networkName, profile.name.value)[|profile.networkName|] == '/';
    assert items[0] in items;
    assert HasPod(items, profile);
    NamesAreNotCounted(nics[0], items);
    NamesAreNotCounted(nics[1], items);
    TwoAreProfiled(profile);
    hide HasPod, LastMultus, CountsAsPod, Profiled;
    assert networks[..1][..0] == [] && nics[..1][..0] == [];
    assert PodNetworks(networks[..1]) == 1;
    assert PodCount(nics[..1], IndexByID(items), IndexByName(items)) == 0;
  }

  function PodByName(profile: VnicProfile): NetworkItem {
    Item(Source(None, Some(GetNetworkMappingName(profile.networkName, profile.name.GetOr("")))),
         NetworkTarget("pod", None, None))
  }

  function TwoNics(profile: VnicProfile): seq<Nic> {
    [Nic("nic1", "", "", Some(profile)), Nic("nic2", "", "", Some(profile))]
  }

  lemma TwoAreProfiled(profile: VnicProfile)
    ensures Profiled(TwoNics(profile)) == TwoNics(profile)
  {
    var nics := TwoNics(profile);
    assert nics[..1] == [nics[0]] && nics[..1][..0] == [];
    assert Profiled(nics[..1]) == [nics[0]];
  }
}
