/**
  Paired-device records and the allowlist that is kept beside them
  (engine/native/src/device_identity.rs, engine/native/src/node.rs, engine/native/src/pairing_host.rs).

  Endpoint ids are opaque and canonical: the lower-case hex the code compares by. Store
  operations are atomic and succeed.
 */
module PairedStore {
  import opened Common
  import opened Counting

  type Id = nat

  datatype Status = Active | UnpairedRemotely | StaleLocalIdentity

  predicate Connectable(s: Status) {
    s.Active? || s.StaleLocalIdentity?
  }

  /** The fields of a record that only the UI reads. */
  datatype Profile = Profile(displayName: string, deviceType: string, os: string)

  datatype Device = Device(
    id: Id,
    profile: Profile,
    pairedAt: nat,
    lastSeenAt: nat,
    relayUrl: Option<string>,
    status: Status,
    trusted: bool)

  /** A record as every pairing path builds it. */
  function NewDevice(id: Id, profile: Profile, now: nat, relayUrl: Option<string>): Device {
    Device(id, profile, now, now, relayUrl, Active, false)
  }

  // ---------------------------------------------------------------- store operations

  /** Position of the record of `id`, or `|devices|` when there is none. */
  function Find(devices: seq<Device>, id: Id): (i: nat)
    ensures i <= |devices|
    ensures i < |devices| ==> devices[i].id == id
    ensures forall j :: 0 <= j < i ==> devices[j].id != id
  {
    if devices == [] || devices[0].id == id then 0 else 1 + Find(devices[1..], id)
  }

  predicate Has(devices: seq<Device>, id: Id) {
    Find(devices, id) < |devices|
  }

  function Get(devices: seq<Device>, id: Id): Option<Device> {
    if Has(devices, id) then Some(devices[Find(devices, id)]) else None
  }

  /** Pairing again refreshes the old row; its `pairedAt` and its trust survive. */
  function Merge(existing: Device, d: Device): Device {
    existing.(profile := d.profile, lastSeenAt := d.lastSeenAt,
              relayUrl := if d.relayUrl.Some? then d.relayUrl else existing.relayUrl,
              status := Active)
  }

  function Remember(devices: seq<Device>, d: Device): seq<Device> {
    var i := Find(devices, d.id);
    if i < |devices| then devices[i := Merge(devices[i], d)] else devices + [d]
  }

  function Forget(devices: seq<Device>, id: Id): seq<Device> {
    if devices == [] then []
    else if devices[0].id == id then Forget(devices[1..], id)
    else [devices[0]] + Forget(devices[1..], id)
  }

  function MarkUnpaired(devices: seq<Device>, id: Id): seq<Device> {
    var i := Find(devices, id);
    if i < |devices| then devices[i := devices[i].(status := UnpairedRemotely)] else devices
  }

  function Rename(devices: seq<Device>, id: Id, name: string): seq<Device> {
    var i := Find(devices, id);
    if i < |devices| then devices[i := devices[i].(profile := devices[i].profile.(displayName := name))] else devices
  }

  function Trust(devices: seq<Device>, id: Id, trust: bool): seq<Device> {
    var i := Find(devices, id);
    if i < |devices| then devices[i := devices[i].(trusted := trust)] else devices
  }

  function Touch(devices: seq<Device>, id: Id, now: nat): seq<Device> {
    var i := Find(devices, id);
    if i < |devices| then devices[i := devices[i].(lastSeenAt := now)] else devices
  }

  predicate IsActive(d: Device) { d.status.Active? }

  function Stale(d: Device): Device {
    if d.status.Active? then d.(status := StaleLocalIdentity) else d
  }

  function MarkStale(devices: seq<Device>): seq<Device> {
    seq(|devices|, i requires 0 <= i < |devices| => Stale(devices[i]))
  }

  /** What `load_allowed_from_store` computes. */
  function ConnectableIds(devices: seq<Device>): set<Id> {
    set d | d in devices && Connectable(d.status) :: d.id
  }

  // ------------------------------------------------------------------ the allowlist

  /** The durable records and the in-memory allowlist of one node. */
  datatype Access = Access(devices: seq<Device>, allowed: set<Id>)

  datatype Op =
    | Pair(device: Device)                          // join, nearby accept and nearby commit
    | HostPair(device: Device, remote: Id)          // record from PairingInfo, allowlist from the connection
    | ForgetLocally(id: Id)
    | ForgetReceived(id: Id)
    | InferUnpair(id: Id)
    | RenameDevice(id: Id, name: string)
    | TrustDevice(id: Id, trust: bool)
    | TouchDevice(id: Id, now: nat)
    | Restart(rotated: bool)

  function Step(a: Access, op: Op): Access {
    match op
    case Pair(d) => Access(Remember(a.devices, d), a.allowed + {d.id})
    case HostPair(d, remote) => Access(Remember(a.devices, d), a.allowed + {remote})
    case ForgetLocally(id) => Access(Forget(a.devices, id), a.allowed - {id})
    case ForgetReceived(id) =>
      if Has(a.devices, id) then Access(MarkUnpaired(a.devices, id), a.allowed - {id}) else a
    case InferUnpair(id) =>
      var existing := Get(a.devices, id);
      if existing.Some? && existing.value.status.Active?
      then Access(MarkUnpaired(a.devices, id), a.allowed - {id}) else a
    case RenameDevice(id, name) => a.(devices := Rename(a.devices, id, name))
    case TrustDevice(id, trust) => a.(devices := Trust(a.devices, id, trust))
    case TouchDevice(id, now) => a.(devices := Touch(a.devices, id, now))
    case Restart(rotated) =>
      Access(if rotated then MarkStale(a.devices) else a.devices, ConnectableIds(a.devices))
  }

  predicate DistinctIds(devices: seq<Device>) {
    forall i, j :: 0 <= i < j < |devices| ==> devices[i].id != devices[j].id
  }

  predicate Inv(a: Access) {
    DistinctIds(a.devices) && a.allowed == ConnectableIds(a.devices)
  }

  /** With distinct ids, a rewritten row changes the standing of its own id only. */
  lemma {:induction false} UpdateRow(devices: seq<Device>, i: nat, d: Device)
    requires DistinctIds(devices) && i < |devices| && d.id == devices[i].id
    ensures DistinctIds(devices[i := d])
    ensures ConnectableIds(devices[i := d])
            == ConnectableIds(devices) - {d.id} + (if Connectable(d.status) then {d.id} else {})
  {
    var after := devices[i := d];
    forall x | x in after ensures x == d || (x.id != d.id && x in devices) {
      var j :| 0 <= j < |after| && after[j] == x;
    }
    forall x | x in devices ensures x == devices[i] || (x.id != d.id && x in after) {
      var j :| 0 <= j < |devices| && devices[j] == x;
      assert after[j] == (if j == i then d else x);
    }
    assert after[i] == d;
  }

  lemma {:induction false} ForgetRow(devices: seq<Device>, id: Id)
    requires DistinctIds(devices)
    ensures DistinctIds(Forget(devices, id))
    ensures forall d :: d in Forget(devices, id) <==> d in devices && d.id != id
  {
    if devices != [] {
      ForgetRow(devices[1..], id);
      assert devices == [devices[0]] + devices[1..];
      assert forall d :: d in devices[1..] ==> d.id != devices[0].id;
    }
  }

  lemma {:induction false} RememberRow(devices: seq<Device>, d: Device)
    requires DistinctIds(devices) && d.status == Active
    ensures DistinctIds(Remember(devices, d))
    ensures ConnectableIds(Remember(devices, d)) == ConnectableIds(devices) + {d.id}
  {
    var i := Find(devices, d.id);
    if i < |devices| {
      UpdateRow(devices, i, Merge(devices[i], d));
      assert devices[i] in devices;
    } else {
      assert d in devices + [d];
    }
  }

  lemma {:induction false} StaleKeepsStanding(devices: seq<Device>)
    ensures DistinctIds(devices) ==> DistinctIds(MarkStale(devices))
    ensures ConnectableIds(MarkStale(devices)) == ConnectableIds(devices)
  {
    var after := MarkStale(devices);
    forall d | d in devices && Connectable(d.status) ensures d.id in ConnectableIds(after) {
      var j :| 0 <= j < |devices| && devices[j] == d;
      assert after[j] in after && Connectable(after[j].status);
    }
    forall d | d in after && Connectable(d.status) ensures d.id in ConnectableIds(devices) {
      var j :| 0 <= j < |after| && after[j] == d;
      assert devices[j] in devices && Connectable(devices[j].status);
    }
  }

  /** A host pairing allowlists the connection's id. */
  predicate WellFormed(op: Op) {
    && (op.Pair? ==> op.device.status == Active)
    && (op.HostPair? ==> op.device.status == Active && op.device.id == op.remote)
  }

  lemma {:induction false} StepKeepsInv(a: Access, op: Op)
    requires Inv(a) && WellFormed(op)
    ensures Inv(Step(a, op))
  {
    if op.Pair? || op.HostPair? {
      RememberRow(a.devices, op.device);
    } else if op.ForgetLocally? {
      ForgetRow(a.devices, op.id);
    } else if op.Restart? {
      StaleKeepsStanding(a.devices);
    } else {
      RowOpKeepsInv(a, op);
    }
  }

  /** The operations that rewrite at most one row. */
  predicate RewritesRow(op: Op) {
    op.ForgetReceived? || op.InferUnpair? || op.RenameDevice? || op.TrustDevice? || op.TouchDevice?
  }

  /** What such an operation makes of the row. */
  function Rewritten(op: Op, d: Device): Device {
    match op
    case RenameDevice(_, name) => d.(profile := d.profile.(displayName := name))
    case TrustDevice(_, trust) => d.(trusted := trust)
    case TouchDevice(_, now) => d.(lastSeenAt := now)
    case _ => d.(status := UnpairedRemotely)
  }

  lemma {:induction false} RowOpKeepsInv(a: Access, op: Op)
    requires Inv(a) && RewritesRow(op)
    ensures Inv(Step(a, op))
  {
    var i := Find(a.devices, op.id);
    if i < |a.devices| {
      UpdateRow(a.devices, i, Rewritten(op, a.devices[i]));
      NotConnectableElsewhere(a.devices, i);
    }
  }

  lemma {:induction false} NotConnectableElsewhere(devices: seq<Device>, i: nat)
    requires DistinctIds(devices) && i < |devices|
    ensures devices[i].id in ConnectableIds(devices) <==> Connectable(devices[i].status)
  {
    if devices[i].id in ConnectableIds(devices) {
      var d :| d in devices && Connectable(d.status) && d.id == devices[i].id;
      var j :| 0 <= j < |devices| && devices[j] == d;
      assert j == i;
    }
    assert devices[i] in devices;
  }

  // ------------------------------------------------------ what one id sees of an operation

  lemma {:induction false} GetAfterUpdate(devices: seq<Device>, i: nat, d: Device, id: Id)
    requires i < |devices| && d.id == devices[i].id && Find(devices, d.id) == i
    ensures Get(devices[i := d], id) == if id == d.id then Some(d) else Get(devices, id)
  {
    var after := devices[i := d];
    assert forall j :: 0 <= j < |devices| ==> after[j].id == devices[j].id;
    FindUnique(after, id, Find(devices, id));
  }

  lemma {:induction false} FindUnique(devices: seq<Device>, id: Id, i: nat)
    requires i <= |devices| && (i < |devices| ==> devices[i].id == id)
    requires forall j :: 0 <= j < i ==> devices[j].id != id
    ensures Find(devices, id) == i
  {
  }

  lemma {:induction false} GetAfterRemember(devices: seq<Device>, d: Device, id: Id)
    ensures id != d.id ==> Get(Remember(devices, d), id) == Get(devices, id)
    ensures d.status == Active ==> Get(Remember(devices, d), d.id).Some?
                                   && Get(Remember(devices, d), d.id).value.status == Active
  {
    var i := Find(devices, d.id);
    if i < |devices| {
      GetAfterUpdate(devices, i, Merge(devices[i], d), id);
      GetAfterUpdate(devices, i, Merge(devices[i], d), d.id);
    } else {
      var k := Find(devices, id);
      if k < |devices| {
        FindUnique(devices + [d], id, k);
      } else {
        FindUnique(devices + [d], id, if id == d.id then |devices| else |devices| + 1);
      }
      FindUnique(devices + [d], d.id, |devices|);
    }
  }

  lemma {:induction false} GetFirst(d: Device, rest: seq<Device>, id: Id)
    ensures Get([d] + rest, id) == if d.id == id then Some(d) else Get(rest, id)
  {
    assert ([d] + rest)[1..] == rest;
  }

  lemma {:induction false} GetAfterForget(devices: seq<Device>, gone: Id, id: Id)
    ensures id != gone ==> Get(Forget(devices, gone), id) == Get(devices, id)
  {
    if devices != [] {
      var d, rest := devices[0], devices[1..];
      GetAfterForget(rest, gone, id);
      assert devices == [d] + rest;
      GetFirst(d, rest, id);
      GetFirst(d, Forget(rest, gone), id);
    }
  }

  /** The peer an operation is about, if it is about one. */
  function Subject(op: Op): Option<Id> {
    match op
    case Pair(d) => Some(d.id)
    case HostPair(d, _) => Some(d.id)
    case Restart(_) => None
    case _ => Some(op.id)
  }

  /** Operations about other peers, and restarts without rotation, leave a peer's record and access alone. */
  lemma {:induction false} OthersUntouched(a: Access, op: Op, id: Id)
    requires Inv(a) && WellFormed(op) && Subject(op) != Some(id) && op != Restart(true)
    ensures Get(Step(a, op).devices, id) == Get(a.devices, id)
    ensures id in Step(a, op).allowed <==> id in a.allowed
  {
    if op.Pair? || op.HostPair? {
      GetAfterRemember(a.devices, op.device, id);
    } else if op.ForgetLocally? {
      GetAfterForget(a.devices, op.id, id);
    } else if RewritesRow(op) {
      var i := Find(a.devices, op.id);
      if i < |a.devices| {
        GetAfterUpdate(a.devices, i, Rewritten(op, a.devices[i]), id);
      }
    }
  }

  // --------------------------------------------- what an operation makes of its own record

  /**
    Pairing a known peer again: the pairing time and the trust are the old ones, the profile and
    the time of the last contact are the new ones, and the relay is the new one if one was given.
   */
  predicate PairedAgain(known: Device, d: Device, after: Device) {
    && after.id == known.id && after.pairedAt == known.pairedAt && after.trusted == known.trusted
    && after.profile == d.profile && after.lastSeenAt == d.lastSeenAt
    && after.relayUrl == (if d.relayUrl.Some? then d.relayUrl else known.relayUrl)
    && after.status == Active
  }

  lemma {:induction false} PairKeepsTimeAndTrust(a: Access, op: Op, before: Option<Device>)
    requires (op.Pair? || op.HostPair?) && before == Get(a.devices, op.device.id)
    ensures var after := Get(Step(a, op).devices, op.device.id);
            && after.Some?
            && (before.None? ==> after.value == op.device)
            && (before.Some? ==> PairedAgain(before.value, op.device, after.value))
    ensures (if op.Pair? then op.device.id else op.remote) in Step(a, op).allowed
  {
    var i := Find(a.devices, op.device.id);
    if i < |a.devices| {
      GetAfterUpdate(a.devices, i, Merge(a.devices[i], op.device), op.device.id);
    } else {
      FindUnique(a.devices + [op.device], op.device.id, |a.devices|);
    }
  }

  /** The record as it was, with one field changed. */
  lemma {:induction false} RowOpChangesOneField(a: Access, op: Op)
    requires RewritesRow(op) && Has(a.devices, op.id)
    ensures var before, after := Get(a.devices, op.id).value, Get(Step(a, op).devices, op.id);
            && after.Some?
            && match op
               case RenameDevice(_, name) => after.value == before.(profile := before.profile.(displayName := name))
               case TrustDevice(_, trust) => after.value == before.(trusted := trust)
               case TouchDevice(_, now) => after.value == before.(lastSeenAt := now)
               case ForgetReceived(_) => after.value == before.(status := UnpairedRemotely)
               case InferUnpair(_) =>
                 after.value == if before.status == Active then before.(status := UnpairedRemotely) else before
  {
    var i := Find(a.devices, op.id);
    GetAfterUpdate(a.devices, i, Rewritten(op, a.devices[i]), op.id);
  }

  /** A forgotten peer has no record and no access, and one that unpaired has a record and no access. */
  lemma {:induction false} UnpairingTakesAccess(a: Access, op: Op)
    requires Inv(a) && (op.ForgetLocally? || op.ForgetReceived? || op.InferUnpair?)
    ensures var after := Step(a, op);
            && (op.ForgetLocally? ==> !Has(after.devices, op.id) && op.id !in after.allowed)
            && (op.ForgetReceived? ==> op.id !in after.allowed)
            && (op.InferUnpair? ==>
                  (op.id in after.allowed <==>
                   Has(a.devices, op.id) && Get(a.devices, op.id).value.status == StaleLocalIdentity))
  {
    var i := Find(a.devices, op.id);
    if op.ForgetLocally? {
      ForgetRow(a.devices, op.id);
    } else if i < |a.devices| {
      NotConnectableElsewhere(a.devices, i);
    } else {
      NoRecordNoAccess(a.devices, op.id);
    }
  }

  lemma {:induction false} NoRecordNoAccess(devices: seq<Device>, id: Id)
    requires !Has(devices, id)
    ensures id !in ConnectableIds(devices)
  {
    forall d | d in devices ensures d.id != id {
      var j :| 0 <= j < |devices| && devices[j] == d;
      assert devices[j].id != id;
    }
  }

  /** A rotated identity makes every active record stale and changes nothing else. */
  lemma {:induction false} RotationMakesStale(a: Access, id: Id)
    ensures var before, after := Get(a.devices, id), Get(Step(a, Restart(true)).devices, id);
            && (before.None? ==> after.None?)
            && (before.Some? ==>
                  after == Some(if before.value.status == Active then before.value.(status := StaleLocalIdentity)
                                else before.value))
  {
    var after := Step(a, Restart(true)).devices;
    assert forall j :: 0 <= j < |a.devices| ==> after[j].id == a.devices[j].id;
    FindUnique(after, id, Find(a.devices, id));
  }

  // ------------------------------------------------------------------------- runs

  function Run(a: Access, ops: seq<Op>): Access {
    if ops == [] then a else Step(Run(a, ops[..|ops| - 1]), ops[|ops| - 1])
  }

  /** Whatever happened, the allowlist is exactly the set of connectable records. */
  lemma {:induction false} AllowlistIsConnectable(a: Access, ops: seq<Op>)
    requires Inv(a) && forall op :: op in ops ==> WellFormed(op)
    ensures Inv(Run(a, ops))
  {
    if ops != [] {
      assert forall op :: op in ops[..|ops| - 1] ==> op in ops;
      assert ops[|ops| - 1] in ops;
      AllowlistIsConnectable(a, ops[..|ops| - 1]);
      StepKeepsInv(Run(a, ops[..|ops| - 1]), ops[|ops| - 1]);
    }
  }

  /** A restart, with or without identity rotation, changes nobody's access. */
  lemma {:induction false} RestartChangesNobody(a: Access, ops: seq<Op>, rotated: bool)
    requires Inv(a) && forall op :: op in ops ==> WellFormed(op)
    ensures Step(Run(a, ops), Restart(rotated)).allowed == Run(a, ops).allowed
  {
    AllowlistIsConnectable(a, ops);
  }

  /**
    The assumption on host pairing is exact: the allowlist still matches the records after it
    if and only if the record is stored under the connection's id, or neither id is new.
   */
  lemma {:induction false} HostPairKeepsInvIff(a: Access, d: Device, remote: Id)
    requires Inv(a) && d.status == Active
    ensures Inv(Step(a, HostPair(d, remote))) <==> d.id == remote || (d.id in a.allowed && remote in a.allowed)
  {
    RememberRow(a.devices, d);
    if Inv(Step(a, HostPair(d, remote))) {
      assert a.allowed + {remote} == a.allowed + {d.id};
      assert remote in a.allowed + {d.id} && d.id in a.allowed + {remote};
    }
  }

  /** It does fail: a PairingInfo that names another id than its connection's stores one peer and allows another. */
  lemma {:induction false} HostPairUnderAnotherId(profile: Profile)
    ensures var after := Step(Access([], {}), HostPair(NewDevice(1, profile, 0, None), 2));
            && ConnectableIds(after.devices) == {1} && after.allowed == {2}
            && Step(after, Restart(false)).allowed == {1}
  {
    var d := NewDevice(1, profile, 0, None);
    assert Remember([], d) == [d] && d in [d];
  }

  // ------------------------------------------------------------------ the objects

  class PairedDeviceStore {
    var devices: seq<Device>

    constructor ()
      ensures devices == []
    {
      devices := [];
    }

    /** The `find` that every store operation starts with. */
    method FindRow(id: Id) returns (i: nat)
      ensures i == Find(devices, id)
    {
      i := 0;
      while i < |devices| && devices[i].id != id
        invariant 0 <= i <= |devices|
        invariant Find(devices, id) == i + Find(devices[i..], id)
      {
        assert devices[i..][1..] == devices[i + 1..];
        i := i + 1;
      }
    }

    method RememberDevice(d: Device)
      modifies this
      ensures devices == Remember(old(devices), d)
    {
      var i := FindRow(d.id);
      if i < |devices| {
        var existing := devices[i];
        existing := existing.(profile := d.profile, lastSeenAt := d.lastSeenAt);
        if d.relayUrl.Some? {
          existing := existing.(relayUrl := d.relayUrl);
        }
        existing := existing.(status := Active);
        devices := devices[i := existing];
      } else {
        devices := devices + [d];
      }
    }

    method MarkUnpairedRemotely(id: Id) returns (found: bool)
      modifies this
      ensures devices == MarkUnpaired(old(devices), id)
      ensures found == Has(old(devices), id)
    {
      var i := FindRow(id);
      found := i < |devices|;
      if found {
        devices := devices[i := devices[i].(status := UnpairedRemotely)];
      }
    }

    method TouchRow(id: Id, now: nat)
      modifies this
      ensures devices == Touch(old(devices), id, now)
    {
      var i := FindRow(id);
      if i < |devices| {
        devices := devices[i := devices[i].(lastSeenAt := now)];
      }
    }

    /** `retain` */
    method ForgetDevice(id: Id)
      modifies this
      ensures devices == Forget(old(devices), id)
    {
      var kept, i := [], 0;
      while i < |devices|
        invariant 0 <= i <= |devices|
        invariant devices == old(devices)
        invariant Forget(devices, id) == kept + Forget(devices[i..], id)
      {
        assert devices[i..][1..] == devices[i + 1..];
        if devices[i].id != id {
          kept := kept + [devices[i]];
        }
        i := i + 1;
      }
      devices := kept;
    }

    method MarkStaleAfterRotation() returns (updated: nat)
      modifies this
      ensures devices == MarkStale(old(devices))
      ensures updated == Count(old(devices), IsActive)
    {
      updated := 0;
      for i := 0 to |devices|
        invariant |devices| == |old(devices)|
        invariant forall j :: 0 <= j < i ==> devices[j] == Stale(old(devices)[j])
        invariant forall j :: i <= j < |devices| ==> devices[j] == old(devices)[j]
        invariant updated == Count(old(devices)[..i], IsActive)
      {
        CountNext(old(devices), i, IsActive);
        if devices[i].status.Active? {
          devices := devices[i := devices[i].(status := StaleLocalIdentity)];
          updated := updated + 1;
        }
      }
      assert old(devices)[..|devices|] == old(devices);
    }

    method LoadAllowed() returns (allowed: set<Id>)
      ensures allowed == ConnectableIds(devices)
    {
      allowed := {};
      for i := 0 to |devices|
        invariant allowed == ConnectableIds(devices[..i])
      {
        assert devices[..i + 1] == devices[..i] + [devices[i]];
        if Connectable(devices[i].status) {
          allowed := allowed + {devices[i].id};
        }
      }
      assert devices[..|devices|] == devices;
    }
  }

  /** The store and the allowlist of a running node, updated in the order the code updates them. */
  class AccessControl {
    const store: PairedDeviceStore
    var allowed: set<Id>

    ghost function View(): Access
      reads this, store
    {
      Access(store.devices, allowed)
    }

    /** Node start: load the allowlist, then mark records stale if the identity rotated. */
    constructor (store: PairedDeviceStore, rotated: bool)
      modifies store
      ensures this.store == store
      ensures View() == Step(Access(old(store.devices), {}), Restart(rotated))
    {
      this.store := store;
      allowed := {};
      new;
      allowed := store.LoadAllowed();
      if rotated {
        var _ := store.MarkStaleAfterRotation();
      }
    }

    method PairDevice(d: Device)
      modifies this, store
      ensures View() == Step(old(View()), Pair(d))
    {
      store.RememberDevice(d);
      allowed := allowed + {d.id};
    }

    method HostPairDevice(d: Device, remote: Id)
      modifies this, store
      ensures View() == Step(old(View()), HostPair(d, remote))
    {
      store.RememberDevice(d);
      allowed := allowed + {remote};
    }

    method ForgetPaired(id: Id)
      modifies this, store
      ensures View() == Step(old(View()), ForgetLocally(id))
    {
      allowed := allowed - {id};
      store.ForgetDevice(id);
    }

    method HandleForget(id: Id)
      modifies this, store
      ensures View() == Step(old(View()), ForgetReceived(id))
    {
      var found := store.MarkUnpairedRemotely(id);
      if found {
        allowed := allowed - {id};
      }
    }

    method ApplyRemoteUnpair(id: Id) returns (applied: bool)
      modifies this, store
      ensures View() == Step(old(View()), InferUnpair(id))
      ensures applied <==> Get(old(store.devices), id).Some? && Get(old(store.devices), id).value.status.Active?
    {
      var i := store.FindRow(id);
      if i == |store.devices| || !store.devices[i].status.Active? {
        return false;
      }
      applied := store.MarkUnpairedRemotely(id);
      allowed := allowed - {id};
    }
  }
}
