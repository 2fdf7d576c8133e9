/** `PublicIpGroupableResourceBaseImpl`: a groupable resource that may own a
    public IP address, given by resource id, created on demand with a leaf DNS
    label, or left out. */
module PublicIpGroupable {
  import opened Common
  import Groupable

  /** The public-IP slot: `isPublicIpAddressExisting`, `publicIpAddressId`,
      `publicIpAddressDns`. */
  datatype AddressSlot = AddressSlot(isExisting: bool, id: Option<string>, dns: Option<string>)

  /** What one `ensurePublicIpAddress` call leaves behind: the slot and the
      requests it sent (none when the resource has no public IP). */
  datatype Effect = Effect(slot: AddressSlot, requests: seq<Request>)

  /** `ensurePublicIpAddress`: a new address gets a DNS label (the owner's name
      lowered when none is pending), is created under that label in the
      owner's region and group, and its provider id is remembered; an existing
      address is looked up by id; a null id means no address and no request. */
  function Ensure(s: AddressSlot, owner: string, region: Option<string>, groupName: Option<string>,
                  answer: Request -> string): (e: Effect)
    ensures e.slot.isExisting
    ensures |e.requests| <= 1
    ensures CreateCount(e.requests) == if s.isExisting then 0 else 1
    ensures s.isExisting ==> e.slot == s
    ensures s.isExisting && s.id.None? ==> e.requests == []
    ensures s.isExisting && s.id.Some? ==> e.requests == [Lookup(PublicIpAddresses, s.id)]
    ensures !s.isExisting ==>
              |e.requests| == 1 && e.requests[0].Create? && e.requests[0].kind == PublicIpAddresses &&
              Some(e.requests[0].name) == e.slot.dns && e.requests[0].setting == e.slot.dns &&
              e.requests[0].region == region && e.requests[0].group == groupName &&
              e.slot.id == Some(answer(e.requests[0]))
    ensures s.dns.Some? ==> e.slot.dns == s.dns
    ensures !s.isExisting && s.dns.None? ==> e.slot.dns == Some(ToLower(owner))
  {
    if !s.isExisting then
      var dns := if s.dns.None? then ToLower(owner) else s.dns.value;
      var create := Create(PublicIpAddresses, dns, region, groupName, Some(dns));
      Effect(AddressSlot(true, Some(answer(create)), Some(dns)), [create])
    else if s.id.Some? then
      Effect(s, [Lookup(PublicIpAddresses, s.id)])
    else
      Effect(s, [])
  }

  /** After a creation, the next `ensurePublicIpAddress` creates nothing: it
      looks the address up by the id the provider reported for the creation. */
  lemma EnsureIsMemoised(s: AddressSlot, owner: string, region: Option<string>, groupName: Option<string>,
                         answer: Request -> string)
    requires !s.isExisting
    ensures var first := Ensure(s, owner, region, groupName, answer);
            var second := Ensure(first.slot, owner, region, groupName, answer);
            second.slot == first.slot &&
            second.requests == [Lookup(PublicIpAddresses, Some(answer(first.requests[0])))]
  {
  }

  /** `withExistingPublicIpAddress(String)`: the id may be null, which means "no address". */
  function WithExisting(s: AddressSlot, resourceId: Option<string>): AddressSlot
  {
    AddressSlot(true, resourceId, s.dns)
  }

  /** `withNewPublicIpAddress(String)`: the label is kept lowered, a null label stays null. */
  function WithNew(s: AddressSlot, leafDnsLabel: Option<string>): (t: AddressSlot)
    ensures !t.isExisting && t.id == s.id
    ensures leafDnsLabel.None? <==> t.dns.None?
    ensures leafDnsLabel.Some? ==> t.dns == Some(ToLower(leafDnsLabel.value))
  {
    AddressSlot(false, s.id, if leafDnsLabel.None? then None else Some(ToLower(leafDnsLabel.value)))
  }

  /** The calls a client can make on the slot. */
  datatype Call = WithExistingId(resourceId: Option<string>) | WithNewLabel(dnsLabel: Option<string>) | EnsureAddress

  datatype Trace = Trace(slot: AddressSlot, log: seq<Request>)

  function Step(s: AddressSlot, c: Call, owner: string, region: Option<string>, groupName: Option<string>,
                answer: Request -> string): Trace
  {
    match c
    case WithExistingId(id) => Trace(WithExisting(s, id), [])
    case WithNewLabel(l) => Trace(WithNew(s, l), [])
    case EnsureAddress =>
      var e := Ensure(s, owner, region, groupName, answer);
      Trace(e.slot, e.requests)
  }

  /** The slot and the requests after a sequence of calls, first call first. */
  function Run(s: AddressSlot, calls: seq<Call>, owner: string, region: Option<string>, groupName: Option<string>,
               answer: Request -> string): Trace
    decreases |calls|
  {
    if calls == [] then Trace(s, [])
    else
      var t := Step(s, calls[0], owner, region, groupName, answer);
      var rest := Run(t.slot, calls[1..], owner, region, groupName, answer);
      Trace(rest.slot, t.log + rest.log)
  }

  function NewCalls(calls: seq<Call>): nat
  {
    if calls == [] then 0 else (if calls[0].WithNewLabel? then 1 else 0) + NewCalls(calls[1..])
  }

  /** No duplicate addresses: the addresses created are at most one per
      `withNewPublicIpAddress` call, plus one when the slot starts out new. */
  lemma {:induction false} CreatesAtMostOncePerNewAddress(s: AddressSlot, calls: seq<Call>, owner: string,
                                                          region: Option<string>, groupName: Option<string>,
                                                          answer: Request -> string)
    ensures CreateCount(Run(s, calls, owner, region, groupName, answer).log)
              <= NewCalls(calls) + (if s.isExisting then 0 else 1)
    decreases |calls|
  {
    if calls != [] {
      var t := Step(s, calls[0], owner, region, groupName, answer);
      var rest := Run(t.slot, calls[1..], owner, region, groupName, answer);
      CreateCountAppend(t.log, rest.log);
      CreatesAtMostOncePerNewAddress(t.slot, calls[1..], owner, region, groupName, answer);
    }
  }

  /** `withoutPublicIpAddress()` followed by any number of ensures: no request
      at all is sent and the slot stays "existing, no id". */
  lemma {:induction false} WithoutAddressSendsNothing(s: AddressSlot, n: nat, owner: string, region: Option<string>,
                                                      groupName: Option<string>, answer: Request -> string)
    ensures var calls := [WithExistingId(None)] + seq(n, _ => EnsureAddress);
            var t := Run(s, calls, owner, region, groupName, answer);
            t.log == [] && t.slot == WithExisting(s, None)
  {
    EnsuresOnNoAddress(WithExisting(s, None), n, owner, region, groupName, answer);
    var calls := [WithExistingId(None)] + seq(n, _ => EnsureAddress);
    assert calls[1..] == seq(n, _ => EnsureAddress);
  }

  /** The null-id case of `EnsureOnExistingOnlyLooksUp` for n ensure calls:
      nothing is sent and the slot stays as it is. */
  lemma {:induction false} EnsuresOnNoAddress(s: AddressSlot, n: nat, owner: string, region: Option<string>,
                                              groupName: Option<string>, answer: Request -> string)
    requires s.isExisting && s.id.None?
    ensures Run(s, seq(n, _ => EnsureAddress), owner, region, groupName, answer) == Trace(s, [])
  {
    EnsureOnExistingOnlyLooksUp(s, seq(n, _ => EnsureAddress), owner, region, groupName, answer);
  }

  predicate OnlyEnsures(calls: seq<Call>)
  {
    forall i :: 0 <= i < |calls| ==> calls[i].EnsureAddress?
  }

  /** Repeated `ensurePublicIpAddress` on an existing slot never changes it:
      with an id every call is a lookup by that id, with a null id no call
      sends anything. */
  lemma {:induction false} EnsureOnExistingOnlyLooksUp(s: AddressSlot, calls: seq<Call>, owner: string,
                                                       region: Option<string>, groupName: Option<string>,
                                                       answer: Request -> string)
    requires s.isExisting && OnlyEnsures(calls)
    ensures var t := Run(s, calls, owner, region, groupName, answer);
            t.slot == s && |t.log| == (if s.id.Some? then |calls| else 0) &&
            forall i :: 0 <= i < |t.log| ==> t.log[i] == Lookup(PublicIpAddresses, s.id)
    decreases |calls|
  {
    if calls != [] {
      EnsureOnExistingOnlyLooksUp(s, calls[1..], owner, region, groupName, answer);
    }
  }

  /** Memoisation over any number of calls: n >= 1 `ensurePublicIpAddress`
      calls create the address exactly once when the slot starts out new and
      never otherwise; every request after the first call's is a lookup by
      the id the slot settled on, and a new slot sends one request per call. */
  lemma {:induction false} RepeatedEnsureCreatesOnce(s: AddressSlot, calls: seq<Call>, owner: string,
                                                     region: Option<string>, groupName: Option<string>,
                                                     answer: Request -> string)
    requires |calls| >= 1 && OnlyEnsures(calls)
    ensures var first := Ensure(s, owner, region, groupName, answer);
            var t := Run(s, calls, owner, region, groupName, answer);
            t.slot == first.slot &&
            t.log == first.requests + Run(first.slot, calls[1..], owner, region, groupName, answer).log &&
            (forall i :: |first.requests| <= i < |t.log| ==> t.log[i] == Lookup(PublicIpAddresses, first.slot.id)) &&
            (!s.isExisting ==> |t.log| == |calls|) &&
            CreateCount(t.log) == if s.isExisting then 0 else 1
  {
    var first := Ensure(s, owner, region, groupName, answer);
    var rest := Run(first.slot, calls[1..], owner, region, groupName, answer);
    EnsureOnExistingOnlyLooksUp(first.slot, calls[1..], owner, region, groupName, answer);
    LookupsCreateNothing(rest.log);
    CreateCountAppend(first.requests, rest.log);
  }

  class PublicIpGroupableResource {
    /** The `GroupableResourceBaseImpl` part this class extends: owner name,
        region, group name and the provider. */
    const group: Groupable.GroupableResource

    var isPublicIpAddressExisting: bool
    var publicIpAddressId: Option<string>
    var publicIpAddressDns: Option<string>

    /** A fresh definition: the address counts as new, with no id and no label. */
    constructor (group: Groupable.GroupableResource)
      ensures this.group == group
      ensures Slot() == AddressSlot(false, None, None)
    {
      this.group := group;
      isPublicIpAddressExisting := false;
      publicIpAddressId := None;
      publicIpAddressDns := None;
    }

    function Slot(): AddressSlot
      reads this
    {
      AddressSlot(isPublicIpAddressExisting, publicIpAddressId, publicIpAddressDns)
    }

    /** `ensurePublicIpAddress()`. */
    method EnsurePublicIpAddress() returns (address: Option<Handle>)
      modifies this, group.provider
      ensures var e := Ensure(old(Slot()), group.name, group.region, group.groupName, group.provider.answer);
              Slot() == e.slot &&
              group.provider.log == old(group.provider.log) + e.requests &&
              address == if e.requests == [] then None
                         else Some(Handle(PublicIpAddresses, group.provider.answer(e.requests[0])))
    {
      if !isPublicIpAddressExisting {
        if publicIpAddressDns == None {
          publicIpAddressDns := Some(ToLower(group.name));
        }
        var dns := publicIpAddressDns.value;
        var pip := group.provider.Issue(Create(PublicIpAddresses, dns, group.region, group.groupName, Some(dns)));
        isPublicIpAddressExisting := true;
        publicIpAddressId := Some(pip.id);
        address := Some(pip);
      } else if publicIpAddressId != None {
        var pip := group.provider.Issue(Lookup(PublicIpAddresses, publicIpAddressId));
        address := Some(pip);
      } else {
        address := None;
      }
    }

    /** `withExistingPublicIpAddress(String)`. */
    method WithExistingPublicIpAddressId(resourceId: Option<string>) returns (self: PublicIpGroupableResource)
      modifies this
      ensures Slot() == WithExisting(old(Slot()), resourceId) && self == this
    {
      isPublicIpAddressExisting := true;
      publicIpAddressId := resourceId;
      self := this;
    }

    /** `withExistingPublicIpAddress(PublicIpAddress)`: the address's id, or a
        null id for a null address. */
    method WithExistingPublicIpAddress(address: Option<Handle>) returns (self: PublicIpGroupableResource)
      modifies this
      ensures Slot() == WithExisting(old(Slot()), if address.Some? then Some(address.value.id) else None)
      ensures self == this
    {
      self := WithExistingPublicIpAddressId(if address.Some? then Some(address.value.id) else None);
    }

    /** `withNewPublicIpAddress(String)`. */
    method WithNewPublicIpAddress(leafDnsLabel: Option<string>) returns (self: PublicIpGroupableResource)
      modifies this
      ensures Slot() == WithNew(old(Slot()), leafDnsLabel) && self == this
    {
      isPublicIpAddressExisting := false;
      publicIpAddressDns := if leafDnsLabel == None then None else Some(ToLower(leafDnsLabel.value));
      self := this;
    }

    /** `withNewPublicIpAddress()`: a new address under the default label. */
    method WithNewDefaultPublicIpAddress() returns (self: PublicIpGroupableResource)
      modifies this
      ensures Slot() == WithNew(old(Slot()), None) && self == this
    {
      self := WithNewPublicIpAddress(None);
    }

    /** `withoutPublicIpAddress()`: marked existing with a null id. */
    method WithoutPublicIpAddress() returns (self: PublicIpGroupableResource)
      modifies this
      ensures Slot() == AddressSlot(true, None, old(publicIpAddressDns)) && self == this
    {
      self := WithExistingPublicIpAddress(None);
    }
  }
}
