/**
  Unpaired devices seen on the local network (engine/native/src/nearby.rs).

  Endpoint ids are numbers in the order of their text. What an id's fingerprint is, and which ids
  have none because they are malformed, is a parameter. The clock may jump in either direction.
 */
module Nearby {
  import opened Common

  type Id = nat
  type Fingerprints = Id -> Option<string>

  const REFRESH_MS := 60_000

  datatype Identity = Identity(name: string, kind: string, os: Option<string>)

  datatype Device = Device(
    id: Id, fingerprint: string, name: Option<string>, kind: Option<string>, os: Option<string>, identified: bool)

  datatype Tracked = Tracked(device: Device, lastProbe: nat)

  type Registry = map<Id, Tracked>

  datatype Outcome = ProbeNeeded | RefreshNeeded | Known | Paired | Invalid

  datatype Action =
    | Observe(id: Id, paired: bool, now: nat)
    | SetIdentity(id: Id, identity: Identity)
    | Expire(id: Id)
    | Clear

  // ------------------------------------------------------------------------------- steps

  function OutcomeOf(fp: Fingerprints, m: Registry, id: Id, paired: bool, now: nat): Outcome {
    if fp(id).None? then Invalid
    else if paired then Paired
    else if id !in m then ProbeNeeded
    else if SaturatingSub(now, m[id].lastProbe) < REFRESH_MS then Known
    else RefreshNeeded
  }

  function Observed(fp: Fingerprints, m: Registry, id: Id, paired: bool, now: nat): Registry {
    match OutcomeOf(fp, m, id, paired, now)
    case Paired => m - {id}
    case ProbeNeeded => m[id := Tracked(Device(id, fp(id).value, None, None, None, false), now)]
    case RefreshNeeded => m[id := m[id].(lastProbe := now)]
    case _ => m
  }

  function Identified(m: Registry, id: Id, x: Identity): Registry {
    if id !in m then m
    else
      m[id := m[id].(device := m[id].device.(
        name := Some(x.name), kind := Some(x.kind), os := x.os, identified := true))]
  }

  function Step(fp: Fingerprints, m: Registry, a: Action): Registry {
    match a
    case Observe(id, paired, now) => Observed(fp, m, id, paired, now)
    case SetIdentity(id, x) => Identified(m, id, x)
    case Expire(id) => m - {id}
    case Clear => map[]
  }

  function Run(fp: Fingerprints, m: Registry, actions: seq<Action>): Registry {
    if actions == [] then m
    else Step(fp, Run(fp, m, actions[..|actions| - 1]), actions[|actions| - 1])
  }

  // --------------------------------------------------------------------------- invariant

  /** Fields agree with the key, with the fingerprint and with whether the probe was answered. */
  predicate Consistent(fp: Fingerprints, m: Registry) {
    forall id :: id in m ==>
      var d := m[id].device;
      d.id == id && fp(id) == Some(d.fingerprint)
      && d.name.Some? == d.identified && d.kind.Some? == d.identified && (d.os.Some? ==> d.identified)
  }

  lemma {:induction false} StepKeepsConsistent(fp: Fingerprints, m: Registry, a: Action)
    requires Consistent(fp, m)
    ensures Consistent(fp, Step(fp, m, a))
  {
  }

  lemma {:induction false} RunKeepsConsistent(fp: Fingerprints, m: Registry, actions: seq<Action>)
    requires Consistent(fp, m)
    ensures Consistent(fp, Run(fp, m, actions))
  {
    if actions != [] {
      RunKeepsConsistent(fp, m, actions[..|actions| - 1]);
      StepKeepsConsistent(fp, Run(fp, m, actions[..|actions| - 1]), actions[|actions| - 1]);
    }
  }

  // ------------------------------------------------------------------------ probe pacing

  /** Action `i` of the run starts a probe of `id`. */
  predicate StartsProbe(fp: Fingerprints, m: Registry, actions: seq<Action>, i: nat, id: Id)
    requires i < |actions|
  {
    var a := actions[i];
    a.Observe? && a.id == id
    && (var o := OutcomeOf(fp, Run(fp, m, actions[..i]), id, a.paired, a.now); o.ProbeNeeded? || o.RefreshNeeded?)
  }

  predicate TrackedThroughout(fp: Fingerprints, m: Registry, actions: seq<Action>, from: nat, to: nat, id: Id)
    requires to <= |actions|
  {
    forall k :: from <= k <= to ==> id in Run(fp, m, actions[..k])
  }

  /** While the device stays tracked, the entry remembers a probe no earlier than any that was started. */
  lemma {:induction false} ProbeIsRemembered(
      fp: Fingerprints, m: Registry, actions: seq<Action>, i: nat, j: nat, id: Id)
    requires i < j <= |actions| && StartsProbe(fp, m, actions, i, id)
    requires TrackedThroughout(fp, m, actions, i + 1, j, id)
    ensures id in Run(fp, m, actions[..j])
    ensures Run(fp, m, actions[..j])[id].lastProbe >= actions[i].now
    decreases j
  {
    assert actions[..j][..j - 1] == actions[..j - 1];
    if i + 1 < j {
      ProbeIsRemembered(fp, m, actions, i, j - 1, id);
    }
  }

  /** Any two probes of a device that stayed tracked in between start at least a minute apart, on any clock. */
  lemma {:induction false} ProbesArePaced(fp: Fingerprints, m: Registry, actions: seq<Action>, i: nat, j: nat, id: Id)
    requires i < j < |actions|
    requires StartsProbe(fp, m, actions, i, id) && StartsProbe(fp, m, actions, j, id)
    requires TrackedThroughout(fp, m, actions, i + 1, j, id)
    ensures actions[j].now >= actions[i].now + REFRESH_MS
  {
    ProbeIsRemembered(fp, m, actions, i, j, id);
  }

  /**
    What a sighting does. A malformed id changes nothing; a paired device is dropped; a new one is
    listed without an identity and probed; a tracked one is probed again exactly when a minute has
    passed since its last probe.
   */
  lemma {:induction false} SightingIsAnswered(fp: Fingerprints, m: Registry, id: Id, paired: bool, now: nat)
    ensures var o, m' := OutcomeOf(fp, m, id, paired, now), Step(fp, m, Observe(id, paired, now));
            if fp(id).None? then o == Invalid && m' == m
            else if paired then o == Paired && m' == m - {id}
            else if id !in m then
              o == ProbeNeeded && m'.Keys == m.Keys + {id} && m'[id].lastProbe == now
              && m'[id].device == Device(id, fp(id).value, None, None, None, false)
            else if m[id].lastProbe + 60_000 <= now then
              o == RefreshNeeded && m' == m[id := Tracked(m[id].device, now)]
            else o == Known && m' == m
  {
  }

  /** An expired device is gone and the others stay; clearing drops all. */
  lemma {:induction false} ExpiredIsGone(fp: Fingerprints, m: Registry, id: Id)
    ensures var m' := Step(fp, m, Expire(id));
            m'.Keys == m.Keys - {id} && forall other :: other in m' ==> m'[other] == m[other]
    ensures Step(fp, m, Clear) == map[]
  {
  }

  /** A tracked device shows the identity it answered with; an untracked one shows nothing. */
  lemma {:induction false} IdentityIsShown(fp: Fingerprints, m: Registry, id: Id, x: Identity)
    ensures var m' := Step(fp, m, SetIdentity(id, x));
            if id !in m then m' == m
            else
              var d := m[id].device;
              m' == m[id := Tracked(
                Device(d.id, d.fingerprint, Some(x.name), Some(x.kind), x.os, true), m[id].lastProbe)]
  {
  }

  // ---------------------------------------------------------------------- change reports

  /** `l` lists exactly the tracked devices, in the order of their ids. */
  ghost predicate IsListing(m: Registry, l: seq<Device>) {
    && (forall i, j :: 0 <= i < j < |l| ==> l[i].id < l[j].id)
    && (forall d :: d in l <==> d.id in m && m[d.id].device == d)
  }

  lemma {:induction false} NothingInEmpty(a: seq<Device>)
    ensures a == [] <==> forall d :: d !in a
  {
    assert a != [] ==> a[0] in a;
  }

  lemma {:induction false} ListingsAgree(a: seq<Device>, b: seq<Device>)
    requires forall i, j :: 0 <= i < j < |a| ==> a[i].id < a[j].id
    requires forall i, j :: 0 <= i < j < |b| ==> b[i].id < b[j].id
    requires forall d :: d in a <==> d in b
    ensures a == b
  {
    if a == [] || b == [] {
      NothingInEmpty(a);
      NothingInEmpty(b);
    } else {
      var x := a[|a| - 1];
      assert x in b;
      var y := b[|b| - 1];
      assert y in a;
      assert x == y;
      var a', b' := a[..|a| - 1], b[..|b| - 1];
      assert a == a' + [x] && b == b' + [x];
      assert x !in a' && x !in b';
      forall d ensures d in a' <==> d in b' {
        assert d in a' <==> d in a && d != x;
        assert d in b' <==> d in b && d != x;
      }
      ListingsAgree(a', b');
    }
  }

  lemma {:induction false} LastOf(ids: set<Id>) returns (last: Id)
    requires ids != {}
    ensures last in ids && forall id :: id in ids ==> id <= last
  {
    var one :| one in ids;
    last := one;
    if ids - {one} != {} {
      var rest := LastOf(ids - {one});
      last := Max(one, rest);
    }
    forall id | id in ids ensures id <= last {
      assert id == one || id in ids - {one};
    }
  }

  /** Every registry has its listing. */
  lemma {:induction false} ListingExists(fp: Fingerprints, m: Registry) returns (l: seq<Device>)
    requires Consistent(fp, m)
    ensures IsListing(m, l)
    decreases |m|
  {
    if m == map[] {
      l := [];
    } else {
      var last := LastOf(m.Keys);
      assert (m - {last}).Keys == m.Keys - {last};
      var prefix := ListingExists(fp, m - {last});
      l := prefix + [m[last].device];
      ListingOfMore(m, last, prefix);
    }
  }

  lemma {:induction false} ListingOfMore(m: Registry, last: Id, prefix: seq<Device>)
    requires last in m && m[last].device.id == last && forall id :: id in m ==> id <= last
    requires IsListing(m - {last}, prefix)
    ensures IsListing(m, prefix + [m[last].device])
  {
    var l := prefix + [m[last].device];
    forall i | 0 <= i < |prefix| ensures l[i].id < last {
      assert l[i] in prefix;
    }
    forall d ensures d in l <==> d.id in m && m[d.id].device == d {
      assert d in l <==> d in prefix || d == m[last].device;
    }
  }

  /** `set_identity` reports a change exactly when the list the interface shows is a different one. */
  lemma {:induction false} ChangeReportIsExact(
    fp: Fingerprints, m: Registry, id: Id, x: Identity, shown: seq<Device>, shows: seq<Device>)
    requires Consistent(fp, m) && IsListing(m, shown) && IsListing(Identified(m, id, x), shows)
    ensures Changes(m, id, x) <==> shown != shows
  {
    var m' := Identified(m, id, x);
    if Changes(m, id, x) {
      assert m[id].device in shown && m[id].device !in shows;
    } else {
      forall d ensures d in shown <==> d in shows {
        assert d.id in m <==> d.id in m';
      }
      ListingsAgree(shown, shows);
    }
  }

  /** The comparison `set_identity` makes, field by field. */
  predicate Changes(m: Registry, id: Id, x: Identity) {
    id in m
    && (!m[id].device.identified || m[id].device.name != Some(x.name)
        || m[id].device.kind != Some(x.kind) || m[id].device.os != x.os)
  }

  class NearbyRegistry {
    const fp: Fingerprints
    var devices: Registry

    ghost predicate Valid()
      reads this
    {
      Consistent(fp, devices)
    }

    constructor (fp: Fingerprints)
      ensures Valid() && this.fp == fp && devices == map[]
    {
      this.fp, devices := fp, map[];
    }

    method ObservePeer(id: Id, paired: bool, now: nat) returns (o: Outcome)
      requires Valid()
      modifies this
      ensures Valid() && devices == Step(fp, old(devices), Observe(id, paired, now))
      ensures o == OutcomeOf(fp, old(devices), id, paired, now)
    {
      StepKeepsConsistent(fp, devices, Observe(id, paired, now));
      var fingerprint := fp(id);
      if fingerprint.None? {
        return Invalid;
      }
      if paired {
        devices := devices - {id};
        return Paired;
      }
      if id in devices {
        var tracked := devices[id];
        if SaturatingSub(now, tracked.lastProbe) < REFRESH_MS {
          return Known;
        }
        devices := devices[id := tracked.(lastProbe := now)];
        return RefreshNeeded;
      }
      devices := devices[id := Tracked(Device(id, fingerprint.value, None, None, None, false), now)];
      return ProbeNeeded;
    }

    method SetDeviceIdentity(id: Id, x: Identity) returns (changed: bool)
      requires Valid()
      modifies this
      ensures Valid() && devices == Step(fp, old(devices), SetIdentity(id, x))
      ensures forall before, after :: IsListing(old(devices), before) && IsListing(devices, after) ==>
                changed == (before != after)
    {
      ghost var was := devices;
      StepKeepsConsistent(fp, devices, SetIdentity(id, x));
      if id !in devices {
        changed := false;
      } else {
        var d := devices[id].device;
        changed := !d.identified || d.name != Some(x.name) || d.kind != Some(x.kind) || d.os != x.os;
        devices := devices[id := devices[id].(device := d.(
          name := Some(x.name), kind := Some(x.kind), os := x.os, identified := true))];
      }
      forall before, after | IsListing(was, before) && IsListing(devices, after)
        ensures changed == (before != after)
      {
        ChangeReportIsExact(fp, was, id, x, before, after);
      }
    }

    method ExpirePeer(id: Id) returns (removed: bool)
      requires Valid()
      modifies this
      ensures Valid() && devices == Step(fp, old(devices), Expire(id)) && removed == (devices != old(devices))
    {
      removed := id in devices;
      devices := devices - {id};
    }
  }
}
