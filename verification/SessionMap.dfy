/**
  The map of live control sessions (engine/native/src/paired_connections.rs).

  Outbound connect loops and inbound session loops each own one connection at a time and
  share one map. A step is what happens under one acquisition of the map's lock;
  `register_inbound` looks and inserts under two of them.
 */
module SessionMap {

  type Peer = nat
  type Conn = nat

  /** How far the task that owns a connection has come. An aborted task never runs its teardown. */
  datatype Phase = Dialed | Accepted | SawNone | SawSome | Inserted | TornDown | Aborted

  datatype Owner = Owner(peer: Peer, phase: Phase)

  datatype State = State(sessions: map<Peer, Conn>, owners: map<Conn, Owner>)

  const NEW_STATE := State(map[], map[])

  datatype Action =
    | Dial(conn: Conn, peer: Peer)
    | Accept(conn: Conn, peer: Peer)
    | Look(conn: Conn)
    | Insert(conn: Conn)
    | Teardown(conn: Conn)
    | Abort(conn: Conn)
    | ForgetPeer(peer: Peer)
    | Shutdown

  /** `remove_session_if` */
  function RemoveIf(sessions: map<Peer, Conn>, peer: Peer, conn: Conn): map<Peer, Conn> {
    if peer in sessions && sessions[peer] == conn then sessions - {peer} else sessions
  }

  function Advance(s: State, conn: Conn, phase: Phase): State
    requires conn in s.owners
  {
    s.(owners := s.owners[conn := s.owners[conn].(phase := phase)])
  }

  function OwnerStep(s: State, a: Action): State
    requires (a.Look? || a.Insert? || a.Teardown? || a.Abort?) && a.conn in s.owners
  {
    var c, o := a.conn, s.owners[a.conn];
    if a.Look? then
      if !o.phase.Accepted? then s
      else Advance(s, c, if o.peer in s.sessions then SawSome else SawNone)
    else if a.Insert? then
      if !o.phase.Dialed? && !o.phase.SawNone? then s
      else Advance(s, c, Inserted).(sessions := s.sessions[o.peer := c])
    else if a.Teardown? then
      if !o.phase.Inserted? && !o.phase.SawSome? then s
      else Advance(s, c, TornDown).(sessions := RemoveIf(s.sessions, o.peer, c))
    else if o.phase.TornDown? then s
    else Advance(s, c, Aborted)
  }

  function Step(s: State, a: Action): State {
    match a
    case Dial(c, p) => if c in s.owners then s else s.(owners := s.owners[c := Owner(p, Dialed)])
    case Accept(c, p) => if c in s.owners then s else s.(owners := s.owners[c := Owner(p, Accepted)])
    case ForgetPeer(p) => s.(sessions := s.sessions - {p})
    case Shutdown => s.(sessions := map[])
    case _ => if a.conn in s.owners then OwnerStep(s, a) else s
  }

  function Run(s: State, actions: seq<Action>): State {
    if actions == [] then s else Step(Run(s, actions[..|actions| - 1]), actions[|actions| - 1])
  }

  /** Every entry belongs to a connection to that peer whose task inserted it and has not torn it down. */
  predicate Inv(s: State) {
    forall p :: p in s.sessions ==>
      var c := s.sessions[p];
      c in s.owners && s.owners[c].peer == p && (s.owners[c].phase.Inserted? || s.owners[c].phase.Aborted?)
  }

  lemma {:induction false} RunKeepsInv(actions: seq<Action>)
    ensures Inv(Run(NEW_STATE, actions))
  {
    RunFromKeepsInv(NEW_STATE, actions);
  }

  lemma {:induction false} StepKeepsInv(s: State, a: Action)
    requires Inv(s)
    ensures Inv(Step(s, a))
  {
  }

  /** In no interleaving does the map hold a connection whose owner has run its teardown. */
  lemma {:induction false} NeverHoldsTornDown(actions: seq<Action>, peer: Peer)
    ensures var s := Run(NEW_STATE, actions);
            peer in s.sessions ==> s.sessions[peer] in s.owners && !s.owners[s.sessions[peer]].phase.TornDown?
  {
    RunKeepsInv(actions);
  }

  /** The steps that may end the peer's entry for connection `c`. */
  predicate Ends(s: State, a: Action, peer: Peer, c: Conn) {
    a == Teardown(c) || a == ForgetPeer(peer) || a.Shutdown?
    || (a.Insert? && a.conn != c && a.conn in s.owners && s.owners[a.conn].peer == peer)
  }

  lemma {:induction false} EntryStays(s: State, a: Action, peer: Peer)
    requires peer in s.sessions && !Ends(s, a, peer, s.sessions[peer])
    ensures peer in Step(s, a).sessions && Step(s, a).sessions[peer] == s.sessions[peer]
  {
  }

  /**
    An entry outlives everything but its own teardown, a newer session with the same peer, a forget
    of that peer, or shutdown: however many other connections are torn down, it is still there.
   */
  lemma {:induction false} EntryOutlivesOthers(s: State, between: seq<Action>, peer: Peer)
    requires peer in s.sessions
    requires forall n :: 0 <= n < |between| ==> !Ends(Run(s, between[..n]), between[n], peer, s.sessions[peer])
    ensures peer in Run(s, between).sessions && Run(s, between).sessions[peer] == s.sessions[peer]
  {
    if between != [] {
      var last := |between| - 1;
      var prefix := between[..last];
      forall n | 0 <= n < last ensures !Ends(Run(s, prefix[..n]), prefix[n], peer, s.sessions[peer]) {
        assert prefix[..n] == between[..n];
      }
      EntryOutlivesOthers(s, prefix, peer);
      EntryStays(Run(s, prefix), between[last], peer);
    }
  }

  /** An aborted task does nothing any more, and neither does one that has torn down. */
  lemma {:induction false} EndedOwnersStay(s: State, a: Action, c: Conn)
    requires c in s.owners && (s.owners[c].phase.Aborted? || s.owners[c].phase.TornDown?)
    ensures c in Step(s, a).owners && Step(s, a).owners[c] == s.owners[c]
    ensures (a == Insert(c) || a == Teardown(c)) ==> Step(s, a).sessions == s.sessions
  {
  }

  /** An abort ends a task that has not torn down, and leaves its entry in the map. */
  lemma {:induction false} AbortLeavesEntry(s: State, c: Conn)
    requires c in s.owners && !s.owners[c].phase.TornDown?
    ensures Step(s, Abort(c)).owners[c].phase == Aborted && Step(s, Abort(c)).sessions == s.sessions
  {
  }

  // ------------------------------------------------------ looking and inserting separately

  /** The step puts its own connection into the peer's entry. */
  predicate InsertsFor(s: State, a: Action, peer: Peer) {
    a.Insert? && a.conn in s.owners && s.owners[a.conn].peer == peer
    && (s.owners[a.conn].phase.Dialed? || s.owners[a.conn].phase.SawNone?)
  }

  /** The step takes connection `c` out of the peer's entry: its teardown, a forget, or shutdown. */
  predicate Removes(s: State, a: Action, peer: Peer, c: Conn) {
    a == ForgetPeer(peer) || a.Shutdown?
    || (a == Teardown(c) && c in s.owners && s.owners[c].phase.Inserted?)
  }

  /** Step `n` of the run inserts for the peer. */
  predicate InsertsAt(s: State, between: seq<Action>, peer: Peer, n: nat) {
    n < |between| && InsertsFor(Run(s, between[..n]), between[n], peer)
  }

  predicate RemovesAt(s: State, between: seq<Action>, peer: Peer, c: Conn, n: nat) {
    n < |between| && Removes(Run(s, between[..n]), between[n], peer, c)
  }

  /** Step `n` inserts `c` for the peer, no later step inserts for it, and no later step removes `c`. */
  predicate InsertLasts(s: State, between: seq<Action>, peer: Peer, c: Conn, n: nat) {
    && InsertsAt(s, between, peer, n) && between[n] == Insert(c)
    && forall m: nat :: n < m < |between| ==> !InsertsAt(s, between, peer, m) && !RemovesAt(s, between, peer, c, m)
  }

  ghost predicate Holds(s: State, between: seq<Action>, peer: Peer, c: Conn) {
    exists n: nat :: InsertLasts(s, between, peer, c, n)
  }

  /** What one step does to one entry. */
  lemma {:induction false} EntryAfter(s: State, a: Action, peer: Peer)
    requires Inv(s)
    ensures var after := Step(s, a).sessions;
            if InsertsFor(s, a, peer) then peer in after && after[peer] == a.conn
            else if peer in s.sessions && !Removes(s, a, peer, s.sessions[peer])
            then peer in after && after[peer] == s.sessions[peer]
            else peer !in after
  {
  }

  lemma {:induction false} SameInPrefix(s: State, between: seq<Action>, peer: Peer, c: Conn, k: nat, n: nat)
    requires n < k <= |between|
    ensures InsertsAt(s, between[..k], peer, n) == InsertsAt(s, between, peer, n)
    ensures RemovesAt(s, between[..k], peer, c, n) == RemovesAt(s, between, peer, c, n)
  {
    assert between[..k][..n] == between[..n];
  }

  /** One more step: it inserts `c` itself, or it leaves the connection that an earlier step inserted. */
  lemma {:induction false} HoldsAfter(s: State, prefix: seq<Action>, a: Action, peer: Peer, c: Conn)
    ensures var mid := Run(s, prefix);
            Holds(s, prefix + [a], peer, c) <==>
            if InsertsFor(mid, a, peer) then a == Insert(c)
            else Holds(s, prefix, peer, c) && !Removes(mid, a, peer, c)
  {
    var all, last := prefix + [a], |prefix|;
    assert all[..last] == prefix && all[last] == a;
    forall n: nat | n < last
      ensures InsertsAt(s, prefix, peer, n) == InsertsAt(s, all, peer, n)
      ensures RemovesAt(s, prefix, peer, c, n) == RemovesAt(s, all, peer, c, n)
    {
      SameInPrefix(s, all, peer, c, last, n);
    }
    EarlierInsertLasts(s, prefix, a, peer, c);
    if InsertsAt(s, all, peer, last) && a == Insert(c) {
      assert InsertLasts(s, all, peer, c, last);
    }
  }

  lemma {:induction false} EarlierInsertLasts(s: State, prefix: seq<Action>, a: Action, peer: Peer, c: Conn)
    requires var all := prefix + [a];
             forall n: nat :: n < |prefix| ==>
               && InsertsAt(s, prefix, peer, n) == InsertsAt(s, all, peer, n)
               && RemovesAt(s, prefix, peer, c, n) == RemovesAt(s, all, peer, c, n)
    ensures var all, last := prefix + [a], |prefix|;
            forall n: nat :: n < last ==>
              (InsertLasts(s, all, peer, c, n) <==>
               && InsertLasts(s, prefix, peer, c, n)
               && !InsertsAt(s, all, peer, last) && !RemovesAt(s, all, peer, c, last))
  {
  }

  lemma {:induction false} RunFromKeepsInv(s: State, actions: seq<Action>)
    requires Inv(s)
    ensures Inv(Run(s, actions))
  {
    if actions != [] {
      RunFromKeepsInv(s, actions[..|actions| - 1]);
      StepKeepsInv(Run(s, actions[..|actions| - 1]), actions[|actions| - 1]);
    }
  }

  /** An entry that was absent holds a connection exactly when that connection's insert lasts. */
  lemma {:induction false} HeldIffInsertLasts(s: State, between: seq<Action>, peer: Peer, c: Conn)
    requires Inv(s) && peer !in s.sessions
    ensures var after := Run(s, between).sessions;
            peer in after && after[peer] == c <==> Holds(s, between, peer, c)
  {
    if between != [] {
      var prefix, a := between[..|between| - 1], between[|between| - 1];
      assert between == prefix + [a];
      HeldIffInsertLasts(s, prefix, peer, c);
      RunFromKeepsInv(s, prefix);
      EntryAfter(Run(s, prefix), a, peer);
      HoldsAfter(s, prefix, a, peer, c);
    }
  }

  /** Steps of every task but the one that owns `c`. */
  predicate ByOthers(actions: seq<Action>, c: Conn) {
    forall a :: a in actions ==> !((a.Look? || a.Insert? || a.Teardown? || a.Abort?) && a.conn == c)
  }

  lemma {:induction false} OwnerWaits(s: State, actions: seq<Action>, c: Conn)
    requires c in s.owners && ByOthers(actions, c)
    ensures c in Run(s, actions).owners && Run(s, actions).owners[c] == s.owners[c]
  {
    if actions != [] {
      assert actions[|actions| - 1] in actions;
      OwnerWaits(s, actions[..|actions| - 1], c);
    }
  }

  /** The insert of `c` puts connection `d` out of the peer's entry. */
  predicate Replaces(s: State, c: Conn, d: Conn, peer: Peer) {
    var after := Step(s, Insert(c)).sessions;
    peer in s.sessions && s.sessions[peer] == d && peer in after && after[peer] == c
  }

  /**
    When an inbound registration replaces a session already held. After any run, the task of an
    accepted connection looks, others do anything, and the task goes on: it replaces `d` if and
    only if it saw no session and, in between, `d` was the last to be inserted for the peer and was
    not removed again.
   */
  lemma {:induction false} RegistrationReplacesIff(
      before: seq<Action>, c: Conn, peer: Peer, between: seq<Action>, d: Conn)
    requires var s := Run(NEW_STATE, before); c in s.owners && s.owners[c] == Owner(peer, Accepted)
    requires ByOthers(between, c) && c != d
    ensures var s := Run(NEW_STATE, before);
            var looked := Step(s, Look(c));
            Replaces(Run(looked, between), c, d, peer) <==> peer !in s.sessions && Holds(looked, between, peer, d)
  {
    RunKeepsInv(before);
    LookThenInsert(Run(NEW_STATE, before), c, between, d);
  }

  lemma {:induction false} LookThenInsert(s: State, c: Conn, between: seq<Action>, d: Conn)
    requires Inv(s) && c in s.owners && s.owners[c].phase.Accepted? && ByOthers(between, c) && c != d
    ensures var looked, peer := Step(s, Look(c)), s.owners[c].peer;
            Replaces(Run(looked, between), c, d, peer) <==> peer !in s.sessions && Holds(looked, between, peer, d)
  {
    var looked, peer := Step(s, Look(c)), s.owners[c].peer;
    LookedAt(s, c);
    OwnerWaits(looked, between, c);
    InsertAfterLook(Run(looked, between), c);
    if peer !in s.sessions {
      HeldIffInsertLasts(looked, between, peer, d);
    }
  }

  lemma {:induction false} LookedAt(s: State, c: Conn)
    requires Inv(s) && c in s.owners && s.owners[c].phase.Accepted?
    ensures var looked, peer := Step(s, Look(c)), s.owners[c].peer;
            && Inv(looked) && looked.sessions == s.sessions && c in looked.owners
            && looked.owners[c] == Owner(peer, if peer in s.sessions then SawSome else SawNone)
  {
  }

  lemma {:induction false} InsertAfterLook(s: State, c: Conn)
    requires c in s.owners && (s.owners[c].phase.SawSome? || s.owners[c].phase.SawNone?)
    ensures var peer := s.owners[c].peer;
            Step(s, Insert(c)).sessions == if s.owners[c].phase.SawNone? then s.sessions[peer := c] else s.sessions
  {
  }

  /** The smallest such run: an inbound connection that saw no session replaces an outbound one inserted meanwhile. */
  lemma {:induction false} RaceReplacesHeldSession()
    ensures var s := Step(Step(Step(Step(NEW_STATE, Accept(1, 7)), Dial(2, 7)), Look(1)), Insert(2));
            && s.sessions == map[7 := 2]
            && Step(s, Insert(1)).sessions == map[7 := 1]
            && Step(s, Insert(1)).owners[2].phase == Inserted
  {
    var s := Step(Step(Step(NEW_STATE, Accept(1, 7)), Dial(2, 7)), Look(1));
    assert s.owners[1] == Owner(7, SawNone) && s.owners[2] == Owner(7, Dialed);
  }

  // ------------------------------------------------------------------------ the object

  class SessionTable {
    var sessions: map<Peer, Conn>

    constructor ()
      ensures sessions == map[]
    {
      sessions := map[];
    }

    method SetSession(peer: Peer, conn: Conn)
      modifies this
      ensures sessions == old(sessions)[peer := conn]
    {
      sessions := sessions[peer := conn];
    }

    /** Returns whether an entry was removed, which is what turns presence off. */
    method RemoveSessionIf(peer: Peer, conn: Conn) returns (removed: bool)
      modifies this
      ensures sessions == RemoveIf(old(sessions), peer, conn)
      ensures removed <==> peer in old(sessions) && peer !in sessions
    {
      removed := peer in sessions && sessions[peer] == conn;
      if removed {
        sessions := sessions - {peer};
      }
    }

    method RemoveSession(peer: Peer) returns (removed: bool)
      modifies this
      ensures sessions == old(sessions) - {peer}
      ensures removed <==> peer in old(sessions)
    {
      removed := peer in sessions;
      sessions := sessions - {peer};
    }
  }
}
