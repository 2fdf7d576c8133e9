/** `StorageAccountsImpl`: classic (Service Management) storage accounts. A
    wrapper holds an account name and its properties; fluent setters change
    one property each; `provision` and `apply` turn the properties into create
    and update parameters; `list` indexes the listed accounts by name. */
module StorageAccounts {
  import opened Common

  /** The properties of an account that this layer reads or writes
      (`StorageAccountProperties`); every one may be null. */
  datatype Properties = Properties(
    location: Option<string>,
    affinityGroup: Option<string>,
    description: Option<string>,
    accountLabel: Option<string>,
    accountType: Option<string>)

  /** `new StorageAccountProperties()`: nothing set. */
  function Blank(): Properties
  {
    Properties(None, None, None, None, None)
  }

  /** A storage account as the SDK lists it. */
  datatype NativeAccount = NativeAccount(name: string, properties: Properties)

  /** `StorageAccountTypes.STANDARD_LRS`. */
  const StandardLrs: string := "Standard_LRS"

  /** `StorageAccountCreateParameters`: label and account type are always set. */
  datatype CreateParameters = CreateParameters(
    name: string,
    location: Option<string>,
    affinityGroup: Option<string>,
    description: Option<string>,
    accountLabel: string,
    accountType: string)

  /** `StorageAccountUpdateParameters`. */
  datatype UpdateParameters = UpdateParameters(
    accountType: Option<string>,
    description: Option<string>,
    accountLabel: Option<string>)

  /** The calls into the storage operations of the SDK. */
  datatype StorageRequest =
    | CreateAccount(parameters: CreateParameters)
    | UpdateAccount(accountName: string, update: UpdateParameters)
    | GetAccount(accountName: string)
    | DeleteAccount(accountName: string)
    | ListAccounts

  /** The create parameters `provision` sends: the name lowered; region,
      affinity group and description as set; the label as set or else the
      account's name; the account type as set or else `Standard_LRS`. */
  function ProvisionParameters(name: string, p: Properties): (c: CreateParameters)
    ensures c.name == ToLower(name) && |c.name| == |name|
    ensures forall i :: 0 <= i < |c.name| ==> !IsUpper(c.name[i])
    ensures c.location == p.location && c.affinityGroup == p.affinityGroup && c.description == p.description
    ensures p.accountLabel.Some? ==> c.accountLabel == p.accountLabel.value
    ensures p.accountLabel.None? ==> c.accountLabel == name
    ensures p.accountType.Some? ==> c.accountType == p.accountType.value
    ensures p.accountType.None? ==> c.accountType == StandardLrs
  {
    CreateParameters(
      ToLower(name), p.location, p.affinityGroup, p.description,
      if p.accountLabel.None? then name else p.accountLabel.value,
      if p.accountType.None? then StandardLrs else p.accountType.value)
  }

  /** The update parameters `apply` sends: type, description and label as set, no defaults. */
  function ApplyParameters(p: Properties): UpdateParameters
  {
    UpdateParameters(p.accountType, p.description, p.accountLabel)
  }

  /** `apply` sends no defaults: it sends a label or a type exactly when one is
      set, and then the same one `provision` would send. */
  lemma ApplySendsNoDefaults(name: string, p: Properties)
    ensures ApplyParameters(p).accountLabel.Some? <==> p.accountLabel.Some?
    ensures ApplyParameters(p).accountType.Some? <==> p.accountType.Some?
    ensures p.accountLabel.Some? ==> ApplyParameters(p).accountLabel == Some(ProvisionParameters(name, p).accountLabel)
    ensures p.accountType.Some? ==> ApplyParameters(p).accountType == Some(ProvisionParameters(name, p).accountType)
    ensures ApplyParameters(p).description == ProvisionParameters(name, p).description
  {
  }

  /** A definition whose only setting is its region is provisioned under its
      lowered name, labelled with its name, as a `Standard_LRS` account. */
  lemma ProvisionDefaults(name: string, region: string)
    ensures ProvisionParameters(name, Blank().(location := Some(region)))
              == CreateParameters(ToLower(name), Some(region), None, None, name, StandardLrs)
  {
  }

  /** The accounts `list` indexes: each listed name mapped to the last listed
      account of that name (a later `put` replaces an earlier one). */
  ghost function Indexed(items: seq<NativeAccount>): map<string, NativeAccount>
    decreases |items|
  {
    if items == [] then map[]
    else Indexed(items[..|items| - 1])[items[|items| - 1].name := items[|items| - 1]]
  }

  /** `items[i]` is the last listed account named `k`. */
  ghost predicate IsLastWithName(items: seq<NativeAccount>, i: int, k: string)
  {
    0 <= i < |items| && items[i].name == k && forall j :: i < j < |items| ==> items[j].name != k
  }

  /** The names of the listed accounts. */
  ghost function Names(items: seq<NativeAccount>): set<string>
  {
    set i | 0 <= i < |items| :: items[i].name
  }

  lemma NamesOfSnoc(front: seq<NativeAccount>, last: NativeAccount)
    ensures Names(front + [last]) == Names(front) + {last.name}
  {
    var items := front + [last];
    forall k | k in Names(items) ensures k in Names(front) + {last.name} {
      var i :| 0 <= i < |items| && items[i].name == k;
      if i < |front| { assert front[i] == items[i]; }
    }
    forall k | k in Names(front) ensures k in Names(items) {
      var i :| 0 <= i < |front| && front[i].name == k;
      assert items[i] == front[i];
    }
    assert items[|front|] == last;
  }

  /** The index has exactly the listed names as keys. */
  lemma {:induction false} IndexedKeys(items: seq<NativeAccount>)
    ensures Indexed(items).Keys == Names(items)
    decreases |items|
  {
    if items != [] {
      var n := |items| - 1;
      IndexedKeys(items[..n]);
      assert items == items[..n] + [items[n]];
      NamesOfSnoc(items[..n], items[n]);
    }
  }

  /** The index maps each listed name to the last listed account of that name. */
  lemma {:induction false} IndexedIsLastByName(items: seq<NativeAccount>)
    ensures forall k | k in Indexed(items) ::
              exists i :: IsLastWithName(items, i, k) && Indexed(items)[k] == items[i]
    decreases |items|
  {
    if items != [] {
      var n := |items| - 1;
      var front := items[..n];
      IndexedIsLastByName(front);
      forall k | k in Indexed(items)
        ensures exists i :: IsLastWithName(items, i, k) && Indexed(items)[k] == items[i]
      {
        if k == items[n].name {
          assert IsLastWithName(items, n, k);
        } else {
          assert Indexed(items) == Indexed(front)[items[n].name := items[n]];
          assert k in Indexed(front);
          var i :| IsLastWithName(front, i, k) && Indexed(front)[k] == front[i];
          assert IsLastWithName(items, i, k);
        }
      }
    }
  }

  /** The storage operations of the management SDK, seen only through the
      requests sent to them. What `get` and `list` report depends on every
      request sent before, so a creation, an update or a deletion can show in
      a later read; how the service applies each request is left
      uninterpreted. */
  class StorageService {
    /** The properties the service reports for an account name, given the requests sent so far. */
    const stored: (seq<StorageRequest>, string) -> Properties
    /** The accounts the service lists, given the requests sent so far. */
    const listing: seq<StorageRequest> -> seq<NativeAccount>
    /** Every request sent so far, first request first. */
    var log: seq<StorageRequest>

    constructor (stored: (seq<StorageRequest>, string) -> Properties, listing: seq<StorageRequest> -> seq<NativeAccount>)
      ensures this.stored == stored && this.listing == listing && log == []
    {
      this.stored := stored;
      this.listing := listing;
      log := [];
    }

    method Send(r: StorageRequest)
      modifies this
      ensures log == old(log) + [r]
    {
      log := log + [r];
    }

    method Get(accountName: string) returns (p: Properties)
      modifies this
      ensures log == old(log) + [GetAccount(accountName)] && p == stored(old(log), accountName)
    {
      p := stored(log, accountName);
      log := log + [GetAccount(accountName)];
    }

    method List() returns (items: seq<NativeAccount>)
      modifies this
      ensures log == old(log) + [ListAccounts] && items == listing(old(log))
    {
      items := listing(log);
      log := log + [ListAccounts];
    }
  }

  /** `StorageAccountImpl`: one account's name and properties. */
  class StorageAccount {
    const name: string
    const service: StorageService
    var properties: Properties

    /** `new StorageAccountImpl(nativeItem)`. */
    constructor Wrap(account: NativeAccount, service: StorageService)
      ensures name == account.name && properties == account.properties && this.service == service
    {
      name := account.name;
      properties := account.properties;
      this.service := service;
    }

    /** `withRegion(String)`: sets the location only. */
    method WithRegion(region: Option<string>) returns (self: StorageAccount)
      modifies this
      ensures properties == old(properties).(location := region) && self == this
    {
      properties := properties.(location := region);
      self := this;
    }

    /** `withType(String)`: sets the account type only. */
    method WithType(accountType: Option<string>) returns (self: StorageAccount)
      modifies this
      ensures properties == old(properties).(accountType := accountType) && self == this
    {
      properties := properties.(accountType := accountType);
      self := this;
    }

    /** `withLabel(String)`: sets the label only. */
    method WithLabel(accountLabel: Option<string>) returns (self: StorageAccount)
      modifies this
      ensures properties == old(properties).(accountLabel := accountLabel) && self == this
    {
      properties := properties.(accountLabel := accountLabel);
      self := this;
    }

    /** `withDescription(String)`: sets the description only. */
    method WithDescription(description: Option<string>) returns (self: StorageAccount)
      modifies this
      ensures properties == old(properties).(description := description) && self == this
    {
      properties := properties.(description := description);
      self := this;
    }

    /** `provision()`: one create request, with defaults filled in. */
    method Provision() returns (self: StorageAccount)
      modifies service
      ensures service.log == old(service.log) + [CreateAccount(ProvisionParameters(name, properties))]
      ensures self == this
    {
      var accountLabel := if properties.accountLabel == None then name else properties.accountLabel.value;
      var accountType := if properties.accountType == None then StandardLrs else properties.accountType.value;
      var parameters := CreateParameters(ToLower(name), properties.location, properties.affinityGroup,
                                         properties.description, accountLabel, accountType);
      service.Send(CreateAccount(parameters));
      self := this;
    }

    /** `apply()`: one update request for the lowered name, without defaults. */
    method Apply() returns (self: StorageAccount)
      modifies service
      ensures service.log == old(service.log) + [UpdateAccount(ToLower(name), ApplyParameters(properties))]
      ensures self == this
    {
      var parameters := UpdateParameters(properties.accountType, properties.description, properties.accountLabel);
      service.Send(UpdateAccount(ToLower(name), parameters));
      self := this;
    }

    /** `delete()`: deletes the account under its name as given. */
    method Delete()
      modifies service
      ensures service.log == old(service.log) + [DeleteAccount(name)]
    {
      service.Send(DeleteAccount(name));
    }

    /** `refresh()`: the properties become what the service reports for the
        name as given, after every request sent before; the name stays. */
    method Refresh() returns (self: StorageAccount)
      modifies this, service
      ensures properties == service.stored(old(service.log), name)
      ensures service.log == old(service.log) + [GetAccount(name)]
      ensures self == this
    {
      properties := service.Get(name);
      self := this;
    }
  }

  /** The loop of `list()`: one wrapper per listed account, put under its
      name, so a later account replaces an earlier one of the same name. */
  method Index(items: seq<NativeAccount>, service: StorageService) returns (wrappers: map<string, StorageAccount>)
    ensures wrappers.Keys == set i | 0 <= i < |items| :: items[i].name
    ensures forall k | k in wrappers :: fresh(wrappers[k])
    ensures forall k | k in wrappers ::
              wrappers[k].name == k && wrappers[k].service == service &&
              exists i :: IsLastWithName(items, i, k) && wrappers[k].properties == items[i].properties
  {
    wrappers := map[];
    var i := 0;
    while i < |items|
      invariant 0 <= i <= |items|
      invariant wrappers.Keys == Indexed(items[..i]).Keys
      invariant forall k | k in wrappers :: fresh(wrappers[k])
      invariant forall k | k in wrappers ::
                  wrappers[k].name == k && wrappers[k].service == service &&
                  wrappers[k].properties == Indexed(items[..i])[k].properties
    {
      assert items[..i + 1][..i] == items[..i];
      var wrapper := new StorageAccount.Wrap(items[i], service);
      wrappers := wrappers[items[i].name := wrapper];
      i := i + 1;
    }
    assert items[..|items|] == items;
    IndexedKeys(items);
    IndexedIsLastByName(items);
  }

  /** `StorageAccountsImpl`: the collection of accounts. */
  class StorageAccounts {
    const service: StorageService

    constructor (service: StorageService)
      ensures this.service == service
    {
      this.service := service;
    }

    /** `createStorageAccountWrapper(name)`: a named account with blank properties. */
    method CreateStorageAccountWrapper(name: string) returns (account: StorageAccount)
      ensures fresh(account)
      ensures account.name == name && account.properties == Blank() && account.service == service
    {
      account := new StorageAccount.Wrap(NativeAccount(name, Blank()), service);
    }

    /** `define(name)`: starts a definition. */
    method Define(name: string) returns (account: StorageAccount)
      ensures fresh(account)
      ensures account.name == name && account.properties == Blank() && account.service == service
    {
      account := CreateStorageAccountWrapper(name);
    }

    /** `update(name)`: starts an update, from the same blank wrapper as a definition. */
    method Update(name: string) returns (account: StorageAccount)
      ensures fresh(account)
      ensures account.name == name && account.properties == Blank() && account.service == service
    {
      account := CreateStorageAccountWrapper(name);
    }

    /** `get(name)`: a wrapper refreshed from the service. */
    method Get(name: string) returns (account: StorageAccount)
      modifies service
      ensures fresh(account)
      ensures account.name == name && account.properties == service.stored(old(service.log), name)
      ensures account.service == service
      ensures service.log == old(service.log) + [GetAccount(name)]
    {
      account := CreateStorageAccountWrapper(name);
      account := account.Refresh();
    }

    /** `delete(accountName)`. */
    method Delete(accountName: string)
      modifies service
      ensures service.log == old(service.log) + [DeleteAccount(accountName)]
    {
      service.Send(DeleteAccount(accountName));
    }

    /** `list()`: the listed accounts by name; a Dafny map is a value, so it is
        as unmodifiable as the Java result. */
    method List() returns (accounts: map<string, StorageAccount>)
      modifies service
      ensures service.log == old(service.log) + [ListAccounts]
      ensures var listed := service.listing(old(service.log));
              accounts.Keys == set i | 0 <= i < |listed| :: listed[i].name
      ensures forall k | k in accounts :: fresh(accounts[k])
      ensures var listed := service.listing(old(service.log));
              forall k | k in accounts ::
                accounts[k].name == k && accounts[k].service == service &&
                exists i :: IsLastWithName(listed, i, k) && accounts[k].properties == listed[i].properties
    {
      var items := service.List();
      accounts := Index(items, service);
    }
  }
}
