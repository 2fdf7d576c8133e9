# Dependency slots and storage-account parameters of the Azure shortcuts

This project models, in Dafny, the two parts of the Azure shortcuts for Java
(a fluent layer over the Azure management SDK) that hold logic of their own.

1. **Dependency slots of the resource base classes.** A resource that lives in
   a resource group, may own a public IP address, and sits in a virtual network
   keeps, for each dependency, an "is existing" flag and a pending name or id.
   The `with*` setters write them. `ensure*` either creates the dependency
   once, under a default name when none is pending, or looks it up. The model
   has one Dafny class per Java base class:
   - `Groupable.GroupableResource` (`GroupableResourceBaseImpl`);
   - `GroupResourceBase.GroupResource` (the older `GroupResourceBaseImpl`);
   - `PublicIpGroupable.PublicIpGroupableResource`;
   - `NetworkableGroupable.NetworkableGroupableResource`.

   Java inheritance becomes composition: each subclass holds a `const`
   reference to the part it extends (`group`, `publicIp`). The SDK is
   `Common.Provider`. It records every request (`Create(kind, name, region,
   group, setting)` or `Lookup(kind, key)`) in a ghost log, and answers each
   one with an uninterpreted identifier (`answer`).

   Each `ensure*` method is proved against a pure function of the old slot
   (`GroupSlot.Ensure`, `PublicIpGroupable.Ensure`, `NetworkableGroupable.Ensure`).
   Those functions state what one call promises: it creates exactly once for a
   new slot, an explicit name survives, the default name, and the request
   targets the name the slot keeps. Lemmas then relate several calls:
   - memoisation: the second call is a lookup;
   - n repeated calls create exactly once;
   - over any sequence of setter and ensure calls, at most one creation per
     `withNew*` call, plus one for a slot that starts out new.

2. **Storage accounts (`StorageAccountsImpl`).** A wrapper class holds an
   account name and a record of optional properties. Each fluent setter
   changes one property. `provision` and `apply` send create and update
   parameters built by `ProvisionParameters` and `ApplyParameters`. `list`
   indexes the listed accounts by name; its loop is proved against a ghost
   index function.

Nullable Java strings are `Option<string>`. A resource's `name()` is a
`string`. The model takes `region()` and `id()` as constructor arguments
that stay fixed. This is a modelling choice: in the code they come from
`ResourceBaseImpl`, which is not part of this model.

Some behaviours of the code are worth knowing; the model keeps them as written:
- Neither `ensureGroup` checks that a region is set: the create request carries `region()` as it is, possibly null.
- `GroupableResourceBaseImpl` defaults a new group to `name + "group"`; `GroupResourceBaseImpl` uses `"group" + name`.
- After `ensureNetwork` creates a network, `networkId` still holds the network's name, and later calls look it up under that name. `withExistingNetwork` stores an id in the same field.
- `ensurePublicIpAddress` places a new address in `groupName` as it stands, which is null if no group was named or ensured first.
- `apply` sends the lowered account name. `refresh` and `delete` use the name as given.

## Model

| member | source | states |
|---|---|---|
| `Common.ToLower` | src/com/microsoft/azure/shortcuts/resources/common/implementation/PublicIpGroupableResourceBaseImpl.java:93 | lowering keeps the length and lowers each character, so no upper-case ASCII letter is left |
| `Common.ToLowerIsLower` | src/com/microsoft/azure/shortcuts/services/implementation/StorageAccountsImpl.java:239 | a lowered name has no upper-case letter and lowering it again changes nothing |
| `GroupSlot.Ensure` | src/com/microsoft/azure/shortcuts/resources/common/implementation/GroupableResourceBaseImpl.java:61-76 | after ensureGroup the slot is existing; exactly one creation iff the slot was new, none otherwise; the request targets the name the slot keeps; a new group is created in `region()` outside any group; an explicit name is never overwritten; a new unnamed group gets the default name; an existing slot is unchanged |
| `GroupSlot.EnsureIsMemoised` | src/com/microsoft/azure/shortcuts/resources/common/implementation/GroupableResourceBaseImpl.java:63-75 | a second ensureGroup with no setter between leaves the slot as it was and is a lookup under the settled name |
| `GroupSlot.CreatesAtMostOncePerNewGroup` | src/com/microsoft/azure/shortcuts/resources/common/implementation/GroupableResourceBaseImpl.java:61-100 | over any sequence of setter and ensure calls, groups are created at most once per `withNew...` call, plus once for a slot that starts out new |
| `GroupSlot.ExistingGroupNeverCreated` | src/com/microsoft/azure/shortcuts/resources/common/implementation/GroupableResourceBaseImpl.java:73-88 | from an existing slot, calls that never ask for a new group create nothing |
| `GroupSlot.EnsureOnExistingOnlyLooksUp` | src/com/microsoft/azure/shortcuts/resources/common/implementation/GroupableResourceBaseImpl.java:73-75 | any number of ensureGroup calls on an existing slot are all lookups under its name and leave it unchanged |
| `GroupSlot.RepeatedEnsureCreatesOnce` | src/com/microsoft/azure/shortcuts/resources/common/implementation/GroupableResourceBaseImpl.java:61-76 | n >= 1 ensureGroup calls create exactly once for a new slot and never for an existing one; every call after the first is a lookup under the settled name |
| `Groupable.GroupableResource.constructor` | src/com/microsoft/azure/shortcuts/resources/common/implementation/GroupableResourceBaseImpl.java:39-44 | a fresh resource has no group name and a new (not existing) group |
| `Groupable.GroupableResource.ResourceGroup` | src/com/microsoft/azure/shortcuts/resources/common/implementation/GroupableResourceBaseImpl.java:50-54 | the group parsed from `id()` when there is one, otherwise `groupName` |
| `Groupable.GroupableResource.EnsureGroup` | src/com/microsoft/azure/shortcuts/resources/common/implementation/GroupableResourceBaseImpl.java:61-76 | the new slot and the one request sent are those of `GroupSlot.Ensure` with the `name + "group"` default through `resourceGroups()`; the result is the provider's answer to that request |
| `Groupable.GroupableResource.WithExistingResourceGroup` | src/com/microsoft/azure/shortcuts/resources/common/implementation/GroupableResourceBaseImpl.java:84-88 | sets the name and marks it existing; nothing else changes; returns the same object |
| `Groupable.GroupableResource.WithNewResourceGroup` | src/com/microsoft/azure/shortcuts/resources/common/implementation/GroupableResourceBaseImpl.java:91-96 | sets the name and marks it new; nothing else changes |
| `Groupable.GroupableResource.WithNewDefaultResourceGroup` | src/com/microsoft/azure/shortcuts/resources/common/implementation/GroupableResourceBaseImpl.java:98-100 | a new group with a null name, so ensureGroup will use the default |
| `GroupResourceBase.GroupResource.constructor` | src/com/microsoft/azure/shortcuts/resources/common/implementation/GroupResourceBaseImpl.java:34-39 | a fresh resource has no group name and a new group |
| `GroupResourceBase.GroupResource.Group` | src/com/microsoft/azure/shortcuts/resources/common/implementation/GroupResourceBaseImpl.java:45-48 | `group()` is the group parsed from `id()` |
| `GroupResourceBase.GroupResource.EnsureGroup` | src/com/microsoft/azure/shortcuts/resources/common/implementation/GroupResourceBaseImpl.java:54-69 | the new slot and the one request are those of `GroupSlot.Ensure` with the `"group" + name` default through `groups()` of the given `azure` |
| `GroupResourceBase.GroupResource.WithGroupExisting` | src/com/microsoft/azure/shortcuts/resources/common/implementation/GroupResourceBaseImpl.java:72-76 | sets the name and marks it existing; nothing else changes |
| `GroupResourceBase.GroupResource.WithGroupNew` | src/com/microsoft/azure/shortcuts/resources/common/implementation/GroupResourceBaseImpl.java:78-82 | sets the name and marks it new; nothing else changes |
| `GroupResourceBase.GroupIgnoresGroupName` | src/com/microsoft/azure/shortcuts/resources/common/implementation/GroupResourceBaseImpl.java:45-48 | two resources with the same id report the same group whatever their group names |
| `GroupResourceBase.DefaultNamesDiffer` | src/com/microsoft/azure/shortcuts/resources/common/implementation/GroupResourceBaseImpl.java:57-59 | for every owner name, the older default is "group" followed by the name and the newer one is the name followed by "group"; the two differ whenever the name is non-empty and does not start with 'g' |
| `GroupResourceBase.DefaultNamesForVm1` | src/com/microsoft/azure/shortcuts/resources/common/implementation/GroupResourceBaseImpl.java:57-59 | for "vm1" the defaults are `groupvm1` and `vm1group` |
| `GroupResourceBase.DefaultNamesAgreeForGroup` | src/com/microsoft/azure/shortcuts/resources/common/implementation/GroupResourceBaseImpl.java:57-59 | for an owner named "group" both defaults are `groupgroup`, so the two can coincide |
| `PublicIpGroupable.Ensure` | src/com/microsoft/azure/shortcuts/resources/common/implementation/PublicIpGroupableResourceBaseImpl.java:51-72 | after ensurePublicIpAddress the slot is existing; at most one request, a creation iff the slot was new; the creation uses the DNS label as both name and leaf label, with `region()` and `groupName`, and the slot keeps the provider's id for it; a pending label is kept and a missing one becomes the lowered owner name; an existing slot with an id is looked up by it, one with a null id sends nothing |
| `PublicIpGroupable.EnsureIsMemoised` | src/com/microsoft/azure/shortcuts/resources/common/implementation/PublicIpGroupableResourceBaseImpl.java:64-68 | after a creation, the next call creates nothing and looks the address up by the id the provider reported |
| `PublicIpGroupable.WithNew` | src/com/microsoft/azure/shortcuts/resources/common/implementation/PublicIpGroupableResourceBaseImpl.java:90-95 | marks the address new, keeps the id, stores the lowered label, and a null label stays null |
| `PublicIpGroupable.CreatesAtMostOncePerNewAddress` | src/com/microsoft/azure/shortcuts/resources/common/implementation/PublicIpGroupableResourceBaseImpl.java:51-95 | over any sequence of calls, addresses are created at most once per `withNewPublicIpAddress`, plus once for a slot that starts out new |
| `PublicIpGroupable.WithoutAddressSendsNothing` | src/com/microsoft/azure/shortcuts/resources/common/implementation/PublicIpGroupableResourceBaseImpl.java:97-99 | after `withoutPublicIpAddress`, any number of ensure calls send no request and leave the slot existing with a null id |
| `PublicIpGroupable.EnsuresOnNoAddress` | src/com/microsoft/azure/shortcuts/resources/common/implementation/PublicIpGroupableResourceBaseImpl.java:67-71 | on an existing slot with a null id, n ensure calls send nothing and change nothing (the null-id case of `EnsureOnExistingOnlyLooksUp`) |
| `PublicIpGroupable.EnsureOnExistingOnlyLooksUp` | src/com/microsoft/azure/shortcuts/resources/common/implementation/PublicIpGroupableResourceBaseImpl.java:67-71 | any number of ensure calls on an existing slot leave it unchanged; with an id each one is a lookup by that id, with a null id none sends anything |
| `PublicIpGroupable.RepeatedEnsureCreatesOnce` | src/com/microsoft/azure/shortcuts/resources/common/implementation/PublicIpGroupableResourceBaseImpl.java:51-72 | n >= 1 ensure calls create exactly once for a new slot and never for an existing one; every request after the first call's is a lookup by the settled id; a new slot gets one request per call |
| `PublicIpGroupable.PublicIpGroupableResource.constructor` | src/com/microsoft/azure/shortcuts/resources/common/implementation/PublicIpGroupableResourceBaseImpl.java:33-39 | a fresh resource has a new address with no id and no label |
| `PublicIpGroupable.PublicIpGroupableResource.EnsurePublicIpAddress` | src/com/microsoft/azure/shortcuts/resources/common/implementation/PublicIpGroupableResourceBaseImpl.java:51-72 | the new slot and the requests sent are those of `PublicIpGroupable.Ensure` for the owner's name, region and group name; the result is null exactly when nothing was sent |
| `PublicIpGroupable.PublicIpGroupableResource.WithExistingPublicIpAddressId` | src/com/microsoft/azure/shortcuts/resources/common/implementation/PublicIpGroupableResourceBaseImpl.java:44-48 | marks the address existing with the given id, possibly null; the label is kept |
| `PublicIpGroupable.PublicIpGroupableResource.WithExistingPublicIpAddress` | src/com/microsoft/azure/shortcuts/resources/common/implementation/PublicIpGroupableResourceBaseImpl.java:82-84 | the id of the given address, or a null id for a null address, with the flag set |
| `PublicIpGroupable.PublicIpGroupableResource.WithNewPublicIpAddress` | src/com/microsoft/azure/shortcuts/resources/common/implementation/PublicIpGroupableResourceBaseImpl.java:90-95 | the slot becomes `WithNew` of the old one |
| `PublicIpGroupable.PublicIpGroupableResource.WithNewDefaultPublicIpAddress` | src/com/microsoft/azure/shortcuts/resources/common/implementation/PublicIpGroupableResourceBaseImpl.java:86-88 | a new address with a null label |
| `PublicIpGroupable.PublicIpGroupableResource.WithoutPublicIpAddress` | src/com/microsoft/azure/shortcuts/resources/common/implementation/PublicIpGroupableResourceBaseImpl.java:97-99 | flag set, id null, label kept |
| `NetworkableGroupable.Ensure` | src/com/microsoft/azure/shortcuts/resources/common/implementation/NetworkableGroupableResourceBaseImpl.java:45-63 | after ensureNetwork the slot is existing with its address space kept; exactly one creation iff the slot was new; the creation carries `region()`, `groupName` and the address space; the request targets the name the slot keeps; an explicit name is kept and a missing one becomes `name + "net"` |
| `NetworkableGroupable.EnsureIsMemoised` | src/com/microsoft/azure/shortcuts/resources/common/implementation/NetworkableGroupableResourceBaseImpl.java:58-61 | after a creation, the next call creates nothing and looks the network up under the name it was created with |
| `NetworkableGroupable.CreatesAtMostOncePerNewNetwork` | src/com/microsoft/azure/shortcuts/resources/common/implementation/NetworkableGroupableResourceBaseImpl.java:45-110 | over any sequence of calls, networks are created at most once per `withNewNetwork`, plus once for a slot that starts out new |
| `NetworkableGroupable.EnsureOnExistingOnlyLooksUp` | src/com/microsoft/azure/shortcuts/resources/common/implementation/NetworkableGroupableResourceBaseImpl.java:60-62 | any number of ensureNetwork calls on an existing slot are all lookups under `networkId` and leave it unchanged |
| `NetworkableGroupable.RepeatedEnsureCreatesOnce` | src/com/microsoft/azure/shortcuts/resources/common/implementation/NetworkableGroupableResourceBaseImpl.java:45-63 | n >= 1 ensureNetwork calls create exactly once for a new slot and never for an existing one; every call after the first is a lookup under the settled name |
| `NetworkableGroupable.NetworkableGroupableResource.constructor` | src/com/microsoft/azure/shortcuts/resources/common/implementation/NetworkableGroupableResourceBaseImpl.java:33-42 | a fresh resource has a new unnamed network, no address space, no subnet and a dynamic private IP |
| `NetworkableGroupable.NetworkableGroupableResource.EnsureNetwork` | src/com/microsoft/azure/shortcuts/resources/common/implementation/NetworkableGroupableResourceBaseImpl.java:45-63 | the new slot and the one request are those of `NetworkableGroupable.Ensure` for the owner's name, region and group name; subnet and private IP are untouched |
| `NetworkableGroupable.NetworkableGroupableResource.EnsureSubnet` | src/com/microsoft/azure/shortcuts/resources/common/implementation/NetworkableGroupableResourceBaseImpl.java:66-75 | null for a null network; the named subnet when one is set; otherwise the first subnet in the network's iteration order, which is one of its subnets, and a failure exactly when it has none |
| `NetworkableGroupable.NetworkableGroupableResource.WithExistingNetwork` | src/com/microsoft/azure/shortcuts/resources/common/implementation/NetworkableGroupableResourceBaseImpl.java:82-86 | flag set, `networkId` the given id, the address space, subnet and private IP kept |
| `NetworkableGroupable.NetworkableGroupableResource.WithExistingNetworkOf` | src/com/microsoft/azure/shortcuts/resources/common/implementation/NetworkableGroupableResourceBaseImpl.java:88-90 | the same with the given network's id |
| `NetworkableGroupable.NetworkableGroupableResource.WithNewNetwork` | src/com/microsoft/azure/shortcuts/resources/common/implementation/NetworkableGroupableResourceBaseImpl.java:97-102 | flag cleared, `networkId` the name, `networkCidr` the address space; subnet and private IP kept |
| `NetworkableGroupable.NetworkableGroupableResource.WithNewDefaultNetwork` | src/com/microsoft/azure/shortcuts/resources/common/implementation/NetworkableGroupableResourceBaseImpl.java:108-110 | the same with a null name |
| `NetworkableGroupable.NetworkableGroupableResource.WithSubnet` | src/com/microsoft/azure/shortcuts/resources/common/implementation/NetworkableGroupableResourceBaseImpl.java:117-120 | only `subnetId` changes |
| `NetworkableGroupable.NetworkableGroupableResource.WithPrivateIpAddressDynamic` | src/com/microsoft/azure/shortcuts/resources/common/implementation/NetworkableGroupableResourceBaseImpl.java:126-128 | only the private IP changes, to null |
| `NetworkableGroupable.NetworkableGroupableResource.WithPrivateIpAddressStatic` | src/com/microsoft/azure/shortcuts/resources/common/implementation/NetworkableGroupableResourceBaseImpl.java:131-134 | only the private IP changes, to the given address |
| `StorageAccounts.ProvisionParameters` | src/com/microsoft/azure/shortcuts/services/implementation/StorageAccountsImpl.java:238-244 | the name sent is the lowered name, as long and without upper-case letters; region, affinity group and description pass unchanged; the label is the set one or else the account name; the type is the set one or else `Standard_LRS` |
| `StorageAccounts.ApplySendsNoDefaults` | src/com/microsoft/azure/shortcuts/services/implementation/StorageAccountsImpl.java:252-255 | apply sends a label or a type exactly when one is set, and then the one provision would send; the description is the same as provision's |
| `StorageAccounts.ProvisionDefaults` | src/com/microsoft/azure/shortcuts/services/implementation/StorageAccountsImpl.java:243-244 | a definition with only a region is created under its lowered name, labelled with its name, as `Standard_LRS` |
| `StorageAccounts.IndexedKeys` | src/com/microsoft/azure/shortcuts/services/implementation/StorageAccountsImpl.java:84-88 | the keys of the name index are exactly the listed names |
| `StorageAccounts.IndexedIsLastByName` | src/com/microsoft/azure/shortcuts/services/implementation/StorageAccountsImpl.java:84-88 | each key is mapped to the last listed account of that name |
| `StorageAccounts.Index` | src/com/microsoft/azure/shortcuts/services/implementation/StorageAccountsImpl.java:84-88 | one newly allocated wrapper per listed name; its key is its name and it wraps the last listed account of that name |
| `StorageAccounts.StorageAccount.Wrap` | src/com/microsoft/azure/shortcuts/services/implementation/StorageAccountsImpl.java:126-129 | the wrapper takes the account's name and properties |
| `StorageAccounts.StorageAccount.WithRegion` | src/com/microsoft/azure/shortcuts/services/implementation/StorageAccountsImpl.java:203-206 | only the location changes; returns the same object |
| `StorageAccounts.StorageAccount.WithType` | src/com/microsoft/azure/shortcuts/services/implementation/StorageAccountsImpl.java:214-217 | only the account type changes |
| `StorageAccounts.StorageAccount.WithLabel` | src/com/microsoft/azure/shortcuts/services/implementation/StorageAccountsImpl.java:220-223 | only the label changes |
| `StorageAccounts.StorageAccount.WithDescription` | src/com/microsoft/azure/shortcuts/services/implementation/StorageAccountsImpl.java:226-229 | only the description changes |
| `StorageAccounts.StorageAccount.Provision` | src/com/microsoft/azure/shortcuts/services/implementation/StorageAccountsImpl.java:237-247 | exactly one create request, with `ProvisionParameters` of the name and current properties; the wrapper is unchanged |
| `StorageAccounts.StorageAccount.Apply` | src/com/microsoft/azure/shortcuts/services/implementation/StorageAccountsImpl.java:251-258 | exactly one update request for the lowered name with `ApplyParameters` of the current properties |
| `StorageAccounts.StorageAccount.Delete` | src/com/microsoft/azure/shortcuts/services/implementation/StorageAccountsImpl.java:262-264 | one delete request under the name as given |
| `StorageAccounts.StorageAccount.Refresh` | src/com/microsoft/azure/shortcuts/services/implementation/StorageAccountsImpl.java:268-273 | the properties become those the service reports for the name given every request sent before, so an earlier `apply` can show; one get request; the name stays |
| `StorageAccounts.StorageAccounts.CreateStorageAccountWrapper` | src/com/microsoft/azure/shortcuts/services/implementation/StorageAccountsImpl.java:99-105 | a new wrapper with the given name and blank properties |
| `StorageAccounts.StorageAccounts.Define` | src/com/microsoft/azure/shortcuts/services/implementation/StorageAccountsImpl.java:65-67 | a new wrapper with the given name and blank properties |
| `StorageAccounts.StorageAccounts.Update` | src/com/microsoft/azure/shortcuts/services/implementation/StorageAccountsImpl.java:58-60 | the same blank wrapper as `define` |
| `StorageAccounts.StorageAccounts.Get` | src/com/microsoft/azure/shortcuts/services/implementation/StorageAccountsImpl.java:77-79 | a new wrapper with the given name holding the properties the service reports given the requests sent before, after one get request |
| `StorageAccounts.StorageAccounts.Delete` | src/com/microsoft/azure/shortcuts/services/implementation/StorageAccountsImpl.java:71-73 | one delete request |
| `StorageAccounts.StorageAccounts.List` | src/com/microsoft/azure/shortcuts/services/implementation/StorageAccountsImpl.java:83-91 | one list request; the keys are exactly the names the service lists given the requests sent before, each mapped to a newly allocated wrapper on the same service of the last listed account of that name |

## Left out

- The SDK's HTTP calls are left out. Requests always succeed: exceptions from the provider (creation failures, a lookup or `get` of a missing resource) are not modelled.
- Identifiers the cloud assigns are uninterpreted: `Provider.answer` is an arbitrary function of the request.
- StorageService: what `get` and `list` report is an uninterpreted function of the requests sent before. So the model does not promise that a `refresh` after `apply` shows the update, or that `list` after `provision` or `delete` shows the change. It only allows it.
- `toLowerCase()` is modelled as ASCII lowering; Java's locale-dependent Unicode case mapping is not.
- `ResourcesImpl.groupFromResourceId` is not part of this model. `ResourceGroup` and `Group` take it as an uninterpreted function argument.
- `network.subnets(id)` (the lookup inside the network wrapper) is not part of this model. `EnsureSubnet` returns the key of the subnet to use, not the subnet object.
- `withNewResourceGroup(DefinitionProvisionable)` and `withNewNetwork(DefinitionProvisionable)` are left out. They provision a definition outside the slot and then act like `withExisting*`.
- The overloads that only pull a name or id out of an SDK object are covered by the String overloads: `withExistingResourceGroup(ResourceGroup / ResourceGroupExtended)`, `withExistingNetwork(VirtualNetwork)`, the SDK-model `withExistingPublicIpAddress` and `withRegion(Region)`.
- `name()`, `region()` and `id()` come from `ResourceBaseImpl`, which is not part of this model. In the code the region is set by `withRegion` after `define`, and `id()` exists only after provisioning. The model takes both as fixed constructor arguments, so `withRegion` on the base resources is not modelled.
- A null `name()` is not modelled: the name is a `string`. In the code a null name produces these defaults or failures:
  - the default group becomes `"nullgroup"` at GroupableResourceBaseImpl.java:65;
  - the default group becomes `"groupnull"` at GroupResourceBaseImpl.java:58;
  - the default network becomes `"nullnet"` at NetworkableGroupableResourceBaseImpl.java:50;
  - `ensurePublicIpAddress` throws a NullPointerException at PublicIpGroupableResourceBaseImpl.java:56.
- The Java class hierarchy and its fluent generic return types are modelled by composition and by setters that return the receiver.
- The pass-through getters of `StorageAccountImpl` are left out. So are the properties that this layer never writes: geo regions and their status, status, endpoints and last fail-over time.
- Credential loading, lazy client construction and the sample program are left out. They are I/O and SDK plumbing.
- Concurrency is left out: the Java builders are single-threaded.
