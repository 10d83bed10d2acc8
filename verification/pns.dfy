/** The PNS name resolver: a name (a 32-byte hash) is registered by whoever asks first,
    and from then on only that owner can change the content identifier (CID) it points
    to. Ownership is never transferred or released. */
module Pns {
  import opened Runtime

  datatype PnsResolver = PnsResolver(nameToOwner: map<Hash, AccountId>, nameToCid: map<Hash, Bytes>)

  /** Constructor `new`: no name is registered. */
  function New(): (r: PnsResolver)
    ensures forall n :: !IsRegistered(r, n) && GetOwner(r, n) == None && GetCid(r, n) == []
  {
    PnsResolver(map[], map[])
  }

  /** Message `get_owner`. */
  function GetOwner(s: PnsResolver, name: Hash): Option<AccountId> {
    if name in s.nameToOwner then Some(s.nameToOwner[name]) else None
  }

  /** Message `is_registered`: a name is registered exactly when it has an owner. */
  function IsRegistered(s: PnsResolver, name: Hash): (r: bool)
    ensures r <==> GetOwner(s, name).Some?
  {
    name in s.nameToOwner
  }

  /** Message `get_cid`: a name without a stored CID reads as the empty byte string. */
  function GetCid(s: PnsResolver, name: Hash): (r: Bytes)
    ensures name !in s.nameToCid ==> r == []
    ensures name in s.nameToCid ==> r == s.nameToCid[name]
  {
    if name in s.nameToCid then s.nameToCid[name] else []
  }

  /** Message `register`: succeeds exactly when the name is free, making the caller its
      owner and storing `cid`; no other name is affected. A taken name is left as it was. */
  function Register(s: PnsResolver, caller: AccountId, name: Hash, cid: Bytes): (r: (PnsResolver, bool))
    ensures r.1 <==> !IsRegistered(s, name)
    ensures !r.1 ==> r.0 == s
    ensures r.1 ==> GetOwner(r.0, name) == Some(caller) && GetCid(r.0, name) == cid
    ensures forall n :: n != name ==> GetOwner(r.0, n) == GetOwner(s, n) && GetCid(r.0, n) == GetCid(s, n)
  {
    if name in s.nameToOwner then (s, false)
    else (PnsResolver(s.nameToOwner[name := caller], s.nameToCid[name := cid]), true)
  }

  /** Message `update_cid`: succeeds exactly when the caller owns the name, and then
      replaces that name's CID only. Ownership is untouched either way, and a refused
      update changes nothing. */
  function UpdateCid(s: PnsResolver, caller: AccountId, name: Hash, newCid: Bytes): (r: (PnsResolver, bool))
    ensures r.1 <==> GetOwner(s, name) == Some(caller)
    ensures !r.1 ==> r.0 == s
    ensures forall n :: GetOwner(r.0, n) == GetOwner(s, n)
    ensures r.1 ==> GetCid(r.0, name) == newCid
    ensures forall n :: n != name ==> GetCid(r.0, n) == GetCid(s, n)
  {
    match GetOwner(s, name)
    case Some(owner) =>
      if owner == caller then (s.(nameToCid := s.nameToCid[name := newCid]), true)
      else (s, false)
    case None => (s, false)
  }

  /** One external call to the resolver. */
  datatype PnsCall =
    | RegisterCall(caller: AccountId, name: Hash, cid: Bytes)
    | UpdateCidCall(caller: AccountId, name: Hash, newCid: Bytes)

  function Apply(s: PnsResolver, c: PnsCall): PnsResolver {
    match c
    case RegisterCall(caller, name, cid) => Register(s, caller, name, cid).0
    case UpdateCidCall(caller, name, cid) => UpdateCid(s, caller, name, cid).0
  }

  function Run(s: PnsResolver, calls: seq<PnsCall>): PnsResolver
    decreases |calls|
  {
    if calls == [] then s else Run(Apply(s, calls[0]), calls[1..])
  }

  /** Once registered, a name keeps its owner under any sequence of calls. */
  lemma {:induction false} OwnershipIsPermanent(s: PnsResolver, calls: seq<PnsCall>, name: Hash, owner: AccountId)
    requires GetOwner(s, name) == Some(owner)
    ensures GetOwner(Run(s, calls), name) == Some(owner)
    decreases |calls|
  {
    if calls != [] {
      OwnershipIsPermanent(Apply(s, calls[0]), calls[1..], name, owner);
    }
  }

  /** Only registered names carry a CID. */
  ghost predicate CidsAreOwned(s: PnsResolver) {
    s.nameToCid.Keys <= s.nameToOwner.Keys
  }

  /** Every resolver reachable from the constructor stores CIDs only for registered
      names, so `get_cid` of an unregistered name is empty. */
  lemma {:induction false} RunKeepsCidsOwned(s: PnsResolver, calls: seq<PnsCall>, name: Hash)
    requires CidsAreOwned(s)
    ensures CidsAreOwned(Run(s, calls))
    ensures !IsRegistered(Run(s, calls), name) ==> GetCid(Run(s, calls), name) == []
    decreases |calls|
  {
    if calls != [] {
      RunKeepsCidsOwned(Apply(s, calls[0]), calls[1..], name);
    }
  }

  /** A name whose owner is `owner` changes its CID only through calls made by `owner`. */
  lemma {:induction false} OnlyOwnerChangesCid(s: PnsResolver, calls: seq<PnsCall>, name: Hash, owner: AccountId)
    requires GetOwner(s, name) == Some(owner)
    requires forall i :: 0 <= i < |calls| ==> calls[i].caller != owner
    ensures GetCid(Run(s, calls), name) == GetCid(s, name)
    decreases |calls|
  {
    if calls != [] {
      OnlyOwnerChangesCid(Apply(s, calls[0]), calls[1..], name, owner);
    }
  }
}
