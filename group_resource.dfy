/** `GroupResourceBaseImpl`: the older group-owning base class. Its slot behaves
    like the one of `Groupable`, but the default group name puts "group" in
    front of the owner's name, and the SDK entry point is passed to
    `ensureGroup` rather than held by the resource. */
module GroupResourceBase {
  import opened Common
  import GroupSlot

  class GroupResource {
    const name: string
    const region: Option<string>
    const id: Option<string>

    var groupName: Option<string>
    var isExistingGroup: bool

    constructor (name: string, region: Option<string>, id: Option<string>)
      ensures this.name == name && this.region == region && this.id == id
      ensures groupName == None && !isExistingGroup
    {
      this.name := name;
      this.region := region;
      this.id := id;
      groupName := None;
      isExistingGroup := false;
    }

    function Slot(): GroupSlot.Slot
      reads this
    {
      GroupSlot.Slot(groupName, isExistingGroup)
    }

    /** `group()`: the group parsed from `id()` by the SDK's uninterpreted
        `groupFromResourceId`; `groupName` plays no part. */
    function Group(groupFromResourceId: Option<string> -> Option<string>): (g: Option<string>)
      reads this
      ensures g == groupFromResourceId(id)
    {
      groupFromResourceId(id)
    }

    /** `ensureGroup(Azure)`: creates the group once through `azure.groups()`,
        then only looks it up. */
    method EnsureGroup(azure: Provider) returns (group: Handle)
      modifies this, azure
      ensures var e := GroupSlot.Ensure(old(Slot()), GroupSlot.PrefixDefault(name), Groups, region);
              Slot() == e.slot &&
              azure.log == old(azure.log) + [e.request] &&
              group == Handle(Groups, azure.answer(e.request))
    {
      if !isExistingGroup {
        if groupName == None {
          groupName := Some("group" + name);
        }
        group := azure.Issue(Create(Groups, groupName.value, region, None, None));
        isExistingGroup := true;
      } else {
        group := azure.Issue(Lookup(Groups, groupName));
      }
    }

    /** `withGroupExisting(String)`. */
    method WithGroupExisting(groupName: Option<string>) returns (self: GroupResource)
      modifies this
      ensures Slot() == GroupSlot.Slot(groupName, true) && self == this
    {
      this.groupName := groupName;
      isExistingGroup := true;
      self := this;
    }

    /** `withGroupNew(String)`. */
    method WithGroupNew(groupName: Option<string>) returns (self: GroupResource)
      modifies this
      ensures Slot() == GroupSlot.Slot(groupName, false) && self == this
    {
      this.groupName := groupName;
      isExistingGroup := false;
      self := this;
    }
  }

  /** `group()` reads only `id()`: two resources with the same id report the
      same group whatever their pending group names. */
  lemma GroupIgnoresGroupName(a: GroupResource, b: GroupResource, groupFromResourceId: Option<string> -> Option<string>)
    requires a.id == b.id
    ensures a.Group(groupFromResourceId) == b.Group(groupFromResourceId)
  {
  }

  /** The two base classes place "group" on opposite sides of the owner's
      name: the older one in front, the newer one behind. The two defaults
      differ for every owner whose name does not start with 'g'; they can
      agree otherwise (see `DefaultNamesAgreeForGroup`). */
  lemma {:induction false} DefaultNamesDiffer(owner: string)
    ensures |GroupSlot.PrefixDefault(owner)| == |GroupSlot.SuffixDefault(owner)| == |owner| + 5
    ensures GroupSlot.PrefixDefault(owner)[..5] == "group" && GroupSlot.PrefixDefault(owner)[5..] == owner
    ensures GroupSlot.SuffixDefault(owner)[..|owner|] == owner && GroupSlot.SuffixDefault(owner)[|owner|..] == "group"
    ensures owner != [] && owner[0] != 'g' ==> GroupSlot.PrefixDefault(owner) != GroupSlot.SuffixDefault(owner)
  {
    if owner != [] && owner[0] != 'g' {
      assert GroupSlot.PrefixDefault(owner)[0] == 'g';
      assert GroupSlot.SuffixDefault(owner)[0] == owner[0];
    }
  }

  /** The defaults for "vm1": `groupvm1` in the older class, `vm1group` in the newer. */
  lemma {:induction false} DefaultNamesForVm1()
    ensures GroupSlot.PrefixDefault("vm1") == "groupvm1"
    ensures GroupSlot.SuffixDefault("vm1") == "vm1group"
    ensures GroupSlot.PrefixDefault("vm1") != GroupSlot.SuffixDefault("vm1")
  {
    DefaultNamesDiffer("vm1");
  }

  /** For an owner named "group" both classes pick the same default. */
  lemma {:induction false} DefaultNamesAgreeForGroup()
    ensures GroupSlot.PrefixDefault("group") == GroupSlot.SuffixDefault("group") == "groupgroup"
  {
  }
}
