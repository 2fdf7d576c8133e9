/** `GroupableResourceBaseImpl`: a Resource Manager resource that belongs to a
    resource group, which it either names as existing or asks to be created. */
module Groupable {
  import opened Common
  import GroupSlot

  class GroupableResource {
    /** `name()`, `region()` and `id()` of the resource itself. */
    const name: string
    const region: Option<string>
    const id: Option<string>
    /** `collection.azure()`: where the group requests go. */
    const provider: Provider

    var groupName: Option<string>
    var isExistingGroup: bool

    /** A fresh definition: no group named, and the group counts as new. */
    constructor (name: string, region: Option<string>, id: Option<string>, provider: Provider)
      ensures this.name == name && this.region == region && this.id == id && this.provider == provider
      ensures groupName == None && !isExistingGroup
    {
      this.name := name;
      this.region := region;
      this.id := id;
      this.provider := provider;
      groupName := None;
      isExistingGroup := false;
    }

    /** The group slot as a value. */
    function Slot(): GroupSlot.Slot
      reads this
    {
      GroupSlot.Slot(groupName, isExistingGroup)
    }

    /** `resourceGroup()`: the group that `groupFromResourceId` (the SDK's parser
        of resource ids, left uninterpreted) finds in `id()`, else `groupName`. */
    function ResourceGroup(groupFromResourceId: Option<string> -> Option<string>): (g: Option<string>)
      reads this
      ensures groupFromResourceId(id).Some? ==> g == groupFromResourceId(id)
      ensures groupFromResourceId(id).None? ==> g == groupName
    {
      var parsed := groupFromResourceId(id);
      if parsed.None? then groupName else parsed
    }

    /** `ensureGroup()`: creates the group once, then only looks it up. */
    method EnsureGroup() returns (group: Handle)
      modifies this, provider
      ensures var e := GroupSlot.Ensure(old(Slot()), GroupSlot.SuffixDefault(name), ResourceGroups, region);
              Slot() == e.slot &&
              provider.log == old(provider.log) + [e.request] &&
              group == Handle(ResourceGroups, provider.answer(e.request))
    {
      if !isExistingGroup {
        if groupName == None {
          groupName := Some(name + "group");
        }
        group := provider.Issue(Create(ResourceGroups, groupName.value, region, None, None));
        isExistingGroup := true;
      } else {
        group := provider.Issue(Lookup(ResourceGroups, groupName));
      }
    }

    /** `withExistingResourceGroup(String)`. */
    method WithExistingResourceGroup(groupName: Option<string>) returns (self: GroupableResource)
      modifies this
      ensures Slot() == GroupSlot.Slot(groupName, true) && self == this
    {
      this.groupName := groupName;
      isExistingGroup := true;
      self := this;
    }

    /** `withNewResourceGroup(String)`. */
    method WithNewResourceGroup(groupName: Option<string>) returns (self: GroupableResource)
      modifies this
      ensures Slot() == GroupSlot.Slot(groupName, false) && self == this
    {
      this.groupName := groupName;
      isExistingGroup := false;
      self := this;
    }

    /** `withNewResourceGroup()`: a new group under the default name. */
    method WithNewDefaultResourceGroup() returns (self: GroupableResource)
      modifies this
      ensures Slot() == GroupSlot.Slot(None, false) && self == this
    {
      self := WithNewResourceGroup(None);
    }
  }

  /** A definition with no group chosen, ensured twice: one creation of
      `name + "group"` in the definition's region, then one lookup of it. */
  method DefaultGroupScenario(provider: Provider)
    modifies provider
  {
    var vm := new GroupableResource("vm1", Some("westus"), None, provider);
    ghost var before := provider.log;
    assert GroupSlot.SuffixDefault("vm1") == "vm1group";
    var g1 := vm.EnsureGroup();
    var g2 := vm.EnsureGroup();
    assert provider.log == before + [Create(ResourceGroups, "vm1group", Some("westus"), None, None),
                                     Lookup(ResourceGroups, Some("vm1group"))];
  }

  /** A definition that names an existing group never creates one. */
  method ExistingGroupScenario(provider: Provider)
    modifies provider
  {
    var vm := new GroupableResource("vm1", Some("westus"), None, provider);
    var self := vm.WithExistingResourceGroup(Some("grp1"));
    ghost var before := provider.log;
    var g := vm.EnsureGroup();
    assert provider.log == before + [Lookup(ResourceGroups, Some("grp1"))];
  }
}
