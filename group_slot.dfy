/** The resource-group dependency slot shared by `GroupableResourceBaseImpl`
    and the older `GroupResourceBaseImpl`: a group name (pending or known) and
    an "is existing" flag. The two classes differ only in the collection they
    use and in how they derive a default name, so both are parameters here. */
module GroupSlot {
  import opened Common

  datatype Slot = Slot(groupName: Option<string>, isExisting: bool)

  /** What one `ensureGroup` call leaves behind: the slot and the one request it sent. */
  datatype Effect = Effect(slot: Slot, request: Request)

  /** Default group name of `GroupableResourceBaseImpl`: the owner's name, then "group". */
  function SuffixDefault(owner: string): string { owner + "group" }

  /** Default group name of `GroupResourceBaseImpl`: "group", then the owner's name. */
  function PrefixDefault(owner: string): string { "group" + owner }

  /** `ensureGroup`: a new group is named (by `defaultName` when no name is
      pending), created in `region` and remembered as existing; an existing
      group is looked up by its name. */
  function Ensure(s: Slot, defaultName: string, kind: Kind, region: Option<string>): (e: Effect)
    ensures e.slot.isExisting
    ensures CreateCount([e.request]) == if s.isExisting then 0 else 1
    ensures e.request.kind == kind && Target(e.request) == e.slot.groupName
    ensures e.request.Create? ==> e.request.region == region && e.request.group.None? && e.request.setting.None?
    ensures s.groupName.Some? ==> e.slot.groupName == s.groupName
    ensures !s.isExisting && s.groupName.None? ==> e.slot.groupName == Some(defaultName)
    ensures s.isExisting ==> e.slot == s
  {
    if !s.isExisting then
      var name := if s.groupName.None? then defaultName else s.groupName.value;
      Effect(Slot(Some(name), true), Create(kind, name, region, None, None))
    else
      Effect(s, Lookup(kind, s.groupName))
  }

  /** A second `ensureGroup` with no setter in between creates nothing: it
      looks the group up under the name the first one settled on. */
  lemma EnsureIsMemoised(s: Slot, defaultName: string, kind: Kind, region: Option<string>)
    ensures var first := Ensure(s, defaultName, kind, region);
            var second := Ensure(first.slot, defaultName, kind, region);
            second.slot == first.slot && second.request == Lookup(kind, first.slot.groupName)
  {
  }

  /** The calls a client can make on the slot. */
  datatype Call = WithExisting(name: Option<string>) | WithNew(name: Option<string>) | EnsureGroup

  datatype Trace = Trace(slot: Slot, log: seq<Request>)

  /** One call: the setters overwrite both fields; `EnsureGroup` sends one request. */
  function Step(s: Slot, c: Call, defaultName: string, kind: Kind, region: Option<string>): Trace
  {
    match c
    case WithExisting(g) => Trace(Slot(g, true), [])
    case WithNew(g) => Trace(Slot(g, false), [])
    case EnsureGroup =>
      var e := Ensure(s, defaultName, kind, region);
      Trace(e.slot, [e.request])
  }

  /** The slot and the requests after a sequence of calls, first call first. */
  function Run(s: Slot, calls: seq<Call>, defaultName: string, kind: Kind, region: Option<string>): Trace
    decreases |calls|
  {
    if calls == [] then Trace(s, [])
    else
      var t := Step(s, calls[0], defaultName, kind, region);
      var rest := Run(t.slot, calls[1..], defaultName, kind, region);
      Trace(rest.slot, t.log + rest.log)
  }

  /** Number of `withNew...` calls in a sequence. */
  function NewCalls(calls: seq<Call>): nat
  {
    if calls == [] then 0 else (if calls[0].WithNew? then 1 else 0) + NewCalls(calls[1..])
  }

  /** No duplicate groups: whatever the calls, the groups created are at most
      one per `withNew...` call, plus one when the slot starts out new. */
  lemma {:induction false} CreatesAtMostOncePerNewGroup(s: Slot, calls: seq<Call>, defaultName: string, kind: Kind, region: Option<string>)
    ensures CreateCount(Run(s, calls, defaultName, kind, region).log) <= NewCalls(calls) + (if s.isExisting then 0 else 1)
    decreases |calls|
  {
    if calls != [] {
      var t := Step(s, calls[0], defaultName, kind, region);
      var rest := Run(t.slot, calls[1..], defaultName, kind, region);
      CreateCountAppend(t.log, rest.log);
      CreatesAtMostOncePerNewGroup(t.slot, calls[1..], defaultName, kind, region);
      match calls[0]
      case WithExisting(_) =>
      case WithNew(_) =>
      case EnsureGroup =>
        assert t.slot.isExisting;
    }
  }

  /** From a slot marked existing, calls that never ask for a new group create nothing. */
  lemma {:induction false} ExistingGroupNeverCreated(s: Slot, calls: seq<Call>, defaultName: string, kind: Kind, region: Option<string>)
    requires s.isExisting
    requires forall i :: 0 <= i < |calls| ==> !calls[i].WithNew?
    ensures CreateCount(Run(s, calls, defaultName, kind, region).log) == 0
  {
    NoNewCallsCounted(calls);
    CreatesAtMostOncePerNewGroup(s, calls, defaultName, kind, region);
  }

  lemma {:induction false} NoNewCallsCounted(calls: seq<Call>)
    requires forall i :: 0 <= i < |calls| ==> !calls[i].WithNew?
    ensures NewCalls(calls) == 0
  {
    if calls != [] {
      NoNewCallsCounted(calls[1..]);
    }
  }

  predicate OnlyEnsures(calls: seq<Call>)
  {
    forall i :: 0 <= i < |calls| ==> calls[i].EnsureGroup?
  }

  /** Repeated `ensureGroup` on an existing slot: each call is a lookup under
      the same name and the slot never changes. */
  lemma {:induction false} EnsureOnExistingOnlyLooksUp(s: Slot, calls: seq<Call>, defaultName: string, kind: Kind, region: Option<string>)
    requires s.isExisting && OnlyEnsures(calls)
    ensures var t := Run(s, calls, defaultName, kind, region);
            t.slot == s && |t.log| == |calls| &&
            forall i :: 0 <= i < |t.log| ==> t.log[i] == Lookup(kind, s.groupName)
    decreases |calls|
  {
    if calls != [] {
      EnsureOnExistingOnlyLooksUp(s, calls[1..], defaultName, kind, region);
    }
  }

  /** Memoisation over any number of calls: n >= 1 `ensureGroup` calls create
      the group exactly once when the slot starts out new and never otherwise;
      every call after the first is a lookup under the settled name. */
  lemma {:induction false} RepeatedEnsureCreatesOnce(s: Slot, calls: seq<Call>, defaultName: string, kind: Kind, region: Option<string>)
    requires |calls| >= 1 && OnlyEnsures(calls)
    ensures var first := Ensure(s, defaultName, kind, region);
            var t := Run(s, calls, defaultName, kind, region);
            t.slot == first.slot &&
            t.log == [first.request] + Run(first.slot, calls[1..], defaultName, kind, region).log &&
            (forall i :: 1 <= i < |t.log| ==> t.log[i] == Lookup(kind, first.slot.groupName)) &&
            CreateCount(t.log) == if s.isExisting then 0 else 1
  {
    var first := Ensure(s, defaultName, kind, region);
    var rest := Run(first.slot, calls[1..], defaultName, kind, region);
    EnsureOnExistingOnlyLooksUp(first.slot, calls[1..], defaultName, kind, region);
    LookupsCreateNothing(rest.log);
    CreateCountAppend([first.request], rest.log);
  }
}
