/** `NetworkableGroupableResourceBaseImpl`: a resource with a public-IP slot that
    also sits in a virtual network (given by id or created on demand) and a
    subnet of it, with a dynamic or static private IP address. */
module NetworkableGroupable {
  import opened Common
  import PublicIpGroupable

  /** The network slot: `isNetworkExisting`, `networkId`, `networkCidr`. */
  datatype NetworkSlot = NetworkSlot(isExisting: bool, networkId: Option<string>, networkCidr: Option<string>)

  /** What one `ensureNetwork` call leaves behind: the slot and the one request it sent. */
  datatype Effect = Effect(slot: NetworkSlot, request: Request)

  /** Default network name: the owner's name, then "net". */
  function DefaultNetworkName(owner: string): string { owner + "net" }

  /** `ensureNetwork`: a new network is named (by default when no name is
      pending) and created with the pending address space in the owner's
      region and group; an existing one is looked up by `networkId`. */
  function Ensure(s: NetworkSlot, owner: string, region: Option<string>, groupName: Option<string>): (e: Effect)
    ensures e.slot.isExisting && e.slot.networkCidr == s.networkCidr
    ensures CreateCount([e.request]) == if s.isExisting then 0 else 1
    ensures e.request.kind == Networks && Target(e.request) == e.slot.networkId
    ensures e.request.Create? ==>
              e.request.region == region && e.request.group == groupName && e.request.setting == s.networkCidr
    ensures s.networkId.Some? ==> e.slot.networkId == s.networkId
    ensures !s.isExisting && s.networkId.None? ==> e.slot.networkId == Some(DefaultNetworkName(owner))
    ensures s.isExisting ==> e.slot == s
  {
    if !s.isExisting then
      var name := if s.networkId.None? then DefaultNetworkName(owner) else s.networkId.value;
      Effect(NetworkSlot(true, Some(name), s.networkCidr), Create(Networks, name, region, groupName, s.networkCidr))
    else
      Effect(s, Lookup(Networks, s.networkId))
  }

  /** After a creation, the next `ensureNetwork` creates nothing and looks the
      network up under the name it was created with: `networkId` keeps that
      name, not an id reported by the provider. */
  lemma EnsureIsMemoised(s: NetworkSlot, owner: string, region: Option<string>, groupName: Option<string>)
    requires !s.isExisting
    ensures var first := Ensure(s, owner, region, groupName);
            var second := Ensure(first.slot, owner, region, groupName);
            second.slot == first.slot && second.request == Lookup(Networks, Some(first.request.name))
  {
  }

  /** The calls a client can make on the network slot. */
  datatype Call =
    | WithExistingNetwork(id: Option<string>)
    | WithNewNetwork(name: Option<string>, addressSpace: Option<string>)
    | EnsureNetwork

  datatype Trace = Trace(slot: NetworkSlot, log: seq<Request>)

  function Step(s: NetworkSlot, c: Call, owner: string, region: Option<string>, groupName: Option<string>): Trace
  {
    match c
    case WithExistingNetwork(id) => Trace(NetworkSlot(true, id, s.networkCidr), [])
    case WithNewNetwork(name, space) => Trace(NetworkSlot(false, name, space), [])
    case EnsureNetwork =>
      var e := Ensure(s, owner, region, groupName);
      Trace(e.slot, [e.request])
  }

  /** The slot and the requests after a sequence of calls, first call first. */
  function Run(s: NetworkSlot, calls: seq<Call>, owner: string, region: Option<string>, groupName: Option<string>): Trace
    decreases |calls|
  {
    if calls == [] then Trace(s, [])
    else
      var t := Step(s, calls[0], owner, region, groupName);
      var rest := Run(t.slot, calls[1..], owner, region, groupName);
      Trace(rest.slot, t.log + rest.log)
  }

  function NewCalls(calls: seq<Call>): nat
  {
    if calls == [] then 0 else (if calls[0].WithNewNetwork? then 1 else 0) + NewCalls(calls[1..])
  }

  /** No duplicate networks: the networks created are at most one per
      `withNewNetwork` call, plus one when the slot starts out new. */
  lemma {:induction false} CreatesAtMostOncePerNewNetwork(s: NetworkSlot, calls: seq<Call>, owner: string,
                                                          region: Option<string>, groupName: Option<string>)
    ensures CreateCount(Run(s, calls, owner, region, groupName).log) <= NewCalls(calls) + (if s.isExisting then 0 else 1)
    decreases |calls|
  {
    if calls != [] {
      var t := Step(s, calls[0], owner, region, groupName);
      var rest := Run(t.slot, calls[1..], owner, region, groupName);
      CreateCountAppend(t.log, rest.log);
      CreatesAtMostOncePerNewNetwork(t.slot, calls[1..], owner, region, groupName);
    }
  }

  predicate OnlyEnsures(calls: seq<Call>)
  {
    forall i :: 0 <= i < |calls| ==> calls[i].EnsureNetwork?
  }

  /** Repeated `ensureNetwork` on an existing slot: each call is a lookup
      under `networkId` and the slot never changes. */
  lemma {:induction false} EnsureOnExistingOnlyLooksUp(s: NetworkSlot, calls: seq<Call>, owner: string,
                                                       region: Option<string>, groupName: Option<string>)
    requires s.isExisting && OnlyEnsures(calls)
    ensures var t := Run(s, calls, owner, region, groupName);
            t.slot == s && |t.log| == |calls| &&
            forall i :: 0 <= i < |t.log| ==> t.log[i] == Lookup(Networks, s.networkId)
    decreases |calls|
  {
    if calls != [] {
      EnsureOnExistingOnlyLooksUp(s, calls[1..], owner, region, groupName);
    }
  }

  /** Memoisation over any number of calls: n >= 1 `ensureNetwork` calls
      create the network exactly once when the slot starts out new and never
      otherwise; every call after the first is a lookup under the settled name. */
  lemma {:induction false} RepeatedEnsureCreatesOnce(s: NetworkSlot, calls: seq<Call>, owner: string,
                                                     region: Option<string>, groupName: Option<string>)
    requires |calls| >= 1 && OnlyEnsures(calls)
    ensures var first := Ensure(s, owner, region, groupName);
            var t := Run(s, calls, owner, region, groupName);
            t.slot == first.slot &&
            t.log == [first.request] + Run(first.slot, calls[1..], owner, region, groupName).log &&
            (forall i :: 1 <= i < |t.log| ==> t.log[i] == Lookup(Networks, first.slot.networkId)) &&
            CreateCount(t.log) == if s.isExisting then 0 else 1
  {
    var first := Ensure(s, owner, region, groupName);
    var rest := Run(first.slot, calls[1..], owner, region, groupName);
    EnsureOnExistingOnlyLooksUp(first.slot, calls[1..], owner, region, groupName);
    LookupsCreateNothing(rest.log);
    CreateCountAppend([first.request], rest.log);
  }

  /** A network as `ensureSubnet` sees it: the keys of its subnet map in the
      map's iteration order. */
  datatype NetworkInfo = NetworkInfo(subnets: seq<string>)

  /** The result of `ensureSubnet`: the key of the subnet to use (`None` for a
      null network), or the `NoSuchElementException` of asking an empty subnet
      map for its first entry. */
  datatype SubnetChoice = Chosen(subnet: Option<string>) | NoSuchElement

  class NetworkableGroupableResource {
    /** The `PublicIpGroupableResourceBaseImpl` part this class extends; its
        `group` holds the owner name, region, group name and provider. */
    const publicIp: PublicIpGroupable.PublicIpGroupableResource

    var isNetworkExisting: bool
    var networkId: Option<string>
    var networkCidr: Option<string>
    var subnetId: Option<string>
    var privateIpAddress: Option<string>

    /** A fresh definition: a new network with no name and no address space,
        no subnet chosen, a dynamic private IP. */
    constructor (publicIp: PublicIpGroupable.PublicIpGroupableResource)
      ensures this.publicIp == publicIp
      ensures Slot() == NetworkSlot(false, None, None) && subnetId == None && privateIpAddress == None
    {
      this.publicIp := publicIp;
      isNetworkExisting := false;
      networkId := None;
      networkCidr := None;
      subnetId := None;
      privateIpAddress := None;
    }

    function Slot(): NetworkSlot
      reads this
    {
      NetworkSlot(isNetworkExisting, networkId, networkCidr)
    }

    /** `ensureNetwork()`. */
    method EnsureNetwork() returns (network: Handle)
      modifies this, publicIp.group.provider
      ensures var e := Ensure(old(Slot()), publicIp.group.name, publicIp.group.region, publicIp.group.groupName);
              Slot() == e.slot &&
              publicIp.group.provider.log == old(publicIp.group.provider.log) + [e.request] &&
              network == Handle(Networks, publicIp.group.provider.answer(e.request))
      ensures subnetId == old(subnetId) && privateIpAddress == old(privateIpAddress)
    {
      var group := publicIp.group;
      if !isNetworkExisting {
        if networkId == None {
          networkId := Some(group.name + "net");
        }
        network := group.provider.Issue(Create(Networks, networkId.value, group.region, group.groupName, networkCidr));
        isNetworkExisting := true;
      } else {
        network := group.provider.Issue(Lookup(Networks, networkId));
      }
    }

    /** `ensureSubnet(Network)`: nothing for a null network, the chosen subnet
        when one was named, else the first subnet the network lists. */
    function EnsureSubnet(network: Option<NetworkInfo>): (r: SubnetChoice)
      reads this
      ensures network.None? ==> r == Chosen(None)
      ensures network.Some? && subnetId.Some? ==> r == Chosen(subnetId)
      ensures network.Some? && subnetId.None? ==>
                (r == NoSuchElement <==> network.value.subnets == []) &&
                (r.Chosen? ==> r.subnet.Some? && r.subnet.value in network.value.subnets &&
                               r.subnet.value == network.value.subnets[0])
    {
      if network.None? then Chosen(None)
      else if subnetId.Some? then Chosen(subnetId)
      else if network.value.subnets == [] then NoSuchElement
      else Chosen(Some(network.value.subnets[0]))
    }

    /** `withExistingNetwork(String)`. */
    method WithExistingNetwork(id: Option<string>) returns (self: NetworkableGroupableResource)
      modifies this
      ensures Slot() == NetworkSlot(true, id, old(networkCidr)) && self == this
      ensures subnetId == old(subnetId) && privateIpAddress == old(privateIpAddress)
    {
      isNetworkExisting := true;
      networkId := id;
      self := this;
    }

    /** `withExistingNetwork(Network)`: the network's id. */
    method WithExistingNetworkOf(network: Handle) returns (self: NetworkableGroupableResource)
      modifies this
      ensures Slot() == NetworkSlot(true, Some(network.id), old(networkCidr)) && self == this
      ensures subnetId == old(subnetId) && privateIpAddress == old(privateIpAddress)
    {
      self := WithExistingNetwork(Some(network.id));
    }

    /** `withNewNetwork(String name, String addressSpace)`: `networkId` holds the name. */
    method WithNewNetwork(name: Option<string>, addressSpace: Option<string>) returns (self: NetworkableGroupableResource)
      modifies this
      ensures Slot() == NetworkSlot(false, name, addressSpace) && self == this
      ensures subnetId == old(subnetId) && privateIpAddress == old(privateIpAddress)
    {
      isNetworkExisting := false;
      networkId := name;
      networkCidr := addressSpace;
      self := this;
    }

    /** `withNewNetwork(String addressSpace)`: a new network under the default name. */
    method WithNewDefaultNetwork(addressSpace: Option<string>) returns (self: NetworkableGroupableResource)
      modifies this
      ensures Slot() == NetworkSlot(false, None, addressSpace) && self == this
      ensures subnetId == old(subnetId) && privateIpAddress == old(privateIpAddress)
    {
      self := WithNewNetwork(None, addressSpace);
    }

    /** `withSubnet(String)`. */
    method WithSubnet(subnetId: Option<string>) returns (self: NetworkableGroupableResource)
      modifies this
      ensures Slot() == old(Slot()) && this.subnetId == subnetId && privateIpAddress == old(privateIpAddress)
      ensures self == this
    {
      this.subnetId := subnetId;
      self := this;
    }

    /** `withPrivateIpAddressDynamic()`: no static address. */
    method WithPrivateIpAddressDynamic() returns (self: NetworkableGroupableResource)
      modifies this
      ensures Slot() == old(Slot()) && subnetId == old(subnetId) && privateIpAddress == None
      ensures self == this
    {
      self := WithPrivateIpAddressStatic(None);
    }

    /** `withPrivateIpAddressStatic(String)`. */
    method WithPrivateIpAddressStatic(staticPrivateIpAddress: Option<string>) returns (self: NetworkableGroupableResource)
      modifies this
      ensures Slot() == old(Slot()) && subnetId == old(subnetId) && privateIpAddress == staticPrivateIpAddress
      ensures self == this
    {
      privateIpAddress := staticPrivateIpAddress;
      self := this;
    }
  }
}
