/** Values shared by every dependency slot: nullable strings, the requests the
    shortcuts layer sends to the management SDK, and an abstract provider that
    records those requests. */
module Common {

  /** A Java reference that may be null. */
  datatype Option<+T> = None | Some(value: T)

  /** The SDK collections a dependency slot talks to: `azure.resourceGroups()`,
      the older `azure.groups()`, `azure.publicIpAddresses()` and `azure.networks()`. */
  datatype Kind = ResourceGroups | Groups | PublicIpAddresses | Networks

  /** One call into the SDK. `Create` is a `define(name)...provision()` chain:
      the region, the group it is placed in and one kind-specific setting
      (the leaf domain label of a public IP, the address space of a network).
      `Lookup` is a read by name or id, e.g. `azure.resourceGroups(name)`. */
  datatype Request =
    | Create(kind: Kind, name: string, region: Option<string>, group: Option<string>, setting: Option<string>)
    | Lookup(kind: Kind, key: Option<string>)

  /** What a request is about: the name it creates or the key it looks up. */
  function Target(r: Request): Option<string>
  {
    if r.Create? then Some(r.name) else r.key
  }

  /** The wrapper the SDK returns for a created or looked-up resource. */
  datatype Handle = Handle(kind: Kind, id: string)

  /** The management SDK, seen only through the requests sent to it. */
  class Provider {
    /** The identifier the cloud reports for the resource a request creates or
        finds; nothing is assumed about it. */
    const answer: Request -> string
    /** Every request sent so far, oldest first. */
    ghost var log: seq<Request>

    constructor (answer: Request -> string)
      ensures this.answer == answer && log == []
    {
      this.answer := answer;
      log := [];
    }

    /** Sends one request and returns the wrapper of the resource it names. */
    method Issue(r: Request) returns (h: Handle)
      modifies this
      ensures log == old(log) + [r]
      ensures h == Handle(r.kind, answer(r))
    {
      log := log + [r];
      h := Handle(r.kind, answer(r));
    }
  }

  /** Number of creation requests in a log. */
  function CreateCount(log: seq<Request>): nat
  {
    if log == [] then 0
    else (if log[0].Create? then 1 else 0) + CreateCount(log[1..])
  }

  /** Counting creations distributes over concatenated logs. */
  lemma {:induction false} CreateCountAppend(a: seq<Request>, b: seq<Request>)
    ensures CreateCount(a + b) == CreateCount(a) + CreateCount(b)
  {
    if a == [] {
      assert a + b == b;
    } else {
      assert (a + b)[0] == a[0];
      assert (a + b)[1..] == a[1..] + b;
      CreateCountAppend(a[1..], b);
    }
  }

  /** A log of lookups only holds no creation. */
  lemma {:induction false} LookupsCreateNothing(log: seq<Request>)
    requires forall i :: 0 <= i < |log| ==> log[i].Lookup?
    ensures CreateCount(log) == 0
  {
    if log != [] {
      LookupsCreateNothing(log[1..]);
    }
  }

  predicate IsUpper(c: char) { 'A' <= c <= 'Z' }

  /** ASCII lowering of one character; other characters are kept. */
  function LowerChar(c: char): (d: char)
    ensures !IsUpper(d)
    ensures IsUpper(c) ==> d as int == c as int + 32
    ensures !IsUpper(c) ==> d == c
  {
    if IsUpper(c) then (c as int + 32) as char else c
  }

  /** `String.toLowerCase()`, restricted to ASCII letters. */
  function ToLower(s: string): (r: string)
    ensures |r| == |s|
    ensures forall i :: 0 <= i < |s| ==> r[i] == LowerChar(s[i])
  {
    if s == [] then [] else [LowerChar(s[0])] + ToLower(s[1..])
  }

  /** A lowered string has no upper-case letter left, and lowering it again changes nothing. */
  lemma ToLowerIsLower(s: string)
    ensures forall i :: 0 <= i < |s| ==> !IsUpper(ToLower(s)[i])
    ensures ToLower(ToLower(s)) == ToLower(s)
  {
    var r := ToLower(s);
    assert ToLower(r) == r by {
      assert forall i :: 0 <= i < |r| ==> ToLower(r)[i] == r[i];
    }
  }
}
