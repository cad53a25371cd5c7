/**
  The pairing and control protocol between nodes (engine/native/src/node.rs,
  engine/native/src/paired_connections.rs, engine/native/src/pairing_host.rs).

  Any number of nodes run the code. Connections authenticate their ends, so a message in
  flight carries its true sender; messages can be delayed, reordered and lost. A step is one
  operation of one node. `log` is a history of what the nodes did, for stating properties;
  no node reads it.
 */
module Pairing {
  import opened Common
  import opened Counting
  import opened PairedStore

  const RECENT_PAIRING_GRACE_MS: nat := 10_000

  datatype Reply = Reply(to: Id, accepted: bool)

  /** `delivering`: invites sent whose pending entry is not inserted yet; `outbox`: answers decided but not sent. */
  datatype Node = Node(
    access: Access,
    pending: map<Id, Profile>,
    delivering: multiset<Id>,
    outbox: multiset<Reply>,
    clock: nat)

  const NEW_NODE := Node(Access([], {}), map[], multiset{}, multiset{}, 0)

  /** `Refusal` is a connection closed as "not permitted for unpaired peer"; `committed` is history, not data. */
  datatype Message =
    | Invite(from: Id, to: Id)
    | Response(from: Id, to: Id, accepted: bool)
    | Recognition(from: Id, to: Id)
    | Forgotten(from: Id, to: Id)
    | Refusal(from: Id, to: Id, committed: bool)

  datatype Fact =
    | Stored(owner: Id, peer: Id)
    | Invited(owner: Id, peer: Id)
    | Answered(owner: Id, peer: Id, accepted: bool)
    | Committed(owner: Id, peer: Id)

  datatype World = World(nodes: map<Id, Node>, net: multiset<Message>, log: seq<Fact>)

  const NEW_WORLD := World(map[], multiset{}, [])

  function At(w: World, id: Id): Node {
    if id in w.nodes then w.nodes[id] else NEW_NODE
  }

  /** The session a message is read on. An inbound session remembers whether the peer was paired when it began. */
  datatype Channel = Inbound(peerIsPaired: bool) | Outbound

  datatype Action =
    | SendInvite(node: Id, peer: Id)
    | InsertPending(node: Id, peer: Id, profile: Profile)
    | AcceptInvite(node: Id, peer: Id, profile: Profile)
    | DeclineInvite(node: Id, peer: Id)
    | RespondPaired(node: Id, peer: Id, accepted: bool)
    | SendReply(node: Id, reply: Reply)
    | PairByCode(node: Id, peer: Id, profile: Profile, relayUrl: Option<string>)
    | Dial(node: Id, peer: Id)
    | ForgetPeer(node: Id, peer: Id)
    | SetClock(node: Id, now: nat)
    | RestartNode(node: Id)
    | Deliver(message: Message, channel: Channel)
    | Lose(message: Message)

  // ------------------------------------------------------------------ moves of one node

  /** What one step of one node changes: its own state, the messages in flight and the history. */
  datatype Move = Move(
    op: Option<Op>,
    pending: map<Id, Profile>,
    delivering: multiset<Id>,
    outbox: multiset<Reply>,
    clock: nat,
    sent: multiset<Message>,
    facts: seq<Fact>)

  function Stay(n: Node): Move {
    Move(None, n.pending, n.delivering, n.outbox, n.clock, multiset{}, [])
  }

  function Store(id: Id, n: Node, peer: Id, profile: Profile, relayUrl: Option<string>): Move {
    Stay(n).(op := Some(Pair(NewDevice(peer, profile, n.clock, relayUrl))), facts := [Stored(id, peer)])
  }

  /** True while a refused Recognition more likely means that the peer has not stored its half yet. */
  predicate Settling(n: Node, peer: Id) {
    var existing := Get(n.access.devices, peer);
    existing.Some? && SaturatingSub(n.clock, existing.value.pairedAt) < RECENT_PAIRING_GRACE_MS
  }

  /** An unpaired peer's answer counts only against an invite that is still pending. */
  function OnResponse(id: Id, n: Node, peer: Id, accepted: bool, peerIsPaired: bool): Move {
    if peerIsPaired || peer !in n.pending then Stay(n)
    else if !accepted then Stay(n).(pending := n.pending - {peer})
    else Store(id, n, peer, n.pending[peer], None).(
           pending := n.pending - {peer}, facts := [Committed(id, peer), Stored(id, peer)])
  }

  /** The allowlist is read again before a Recognition is refused. */
  function OnRecognition(id: Id, n: Node, peer: Id, peerIsPaired: bool, committed: bool): Move {
    if peerIsPaired || peer in n.access.allowed then Stay(n).(op := Some(TouchDevice(peer, n.clock)))
    else Stay(n).(sent := multiset{Refusal(id, peer, committed)})
  }

  function OnRefusal(n: Node, peer: Id): Move {
    if Settling(n, peer) then Stay(n) else Stay(n).(op := Some(InferUnpair(peer)))
  }

  function OnForgotten(n: Node, peer: Id, channel: Channel): Move {
    if channel.Outbound? then Stay(n).(op := Some(InferUnpair(peer)))
    else if channel.peerIsPaired || peer in n.access.allowed then Stay(n).(op := Some(ForgetReceived(peer)))
    else Stay(n)
  }

  function OnMessage(w: World, n: Node, m: Message, channel: Channel): Move {
    match m
    case Response(peer, id, accepted) =>
      if channel.Inbound? then OnResponse(id, n, peer, accepted, channel.peerIsPaired) else Stay(n)
    case Recognition(peer, id) =>
      if channel.Inbound? then OnRecognition(id, n, peer, channel.peerIsPaired, Stored(id, peer) in w.log) else Stay(n)
    case Refusal(peer, _, _) => OnRefusal(n, peer)
    case Forgotten(peer, _) => OnForgotten(n, peer, channel)
    case Invite(_, _) => Stay(n)
  }

  function Actor(a: Action): Id {
    if a.Deliver? || a.Lose? then a.message.to else a.node
  }

  /** The commands of the nearby invite exchange. */
  function InviteMove(id: Id, n: Node, a: Action): Move {
    match a
    case SendInvite(_, peer) =>
      Stay(n).(delivering := n.delivering + multiset{peer}, sent := multiset{Invite(id, peer)})
    case InsertPending(_, peer, profile) =>
      if peer !in n.delivering then Stay(n)
      else Stay(n).(delivering := n.delivering - multiset{peer},
                    pending := n.pending[peer := profile], facts := [Invited(id, peer)])
    case AcceptInvite(_, peer, profile) =>
      Store(id, n, peer, profile, None).(outbox := n.outbox + multiset{Reply(peer, true)})
    case DeclineInvite(_, peer) => Stay(n).(outbox := n.outbox + multiset{Reply(peer, false)})
    case RespondPaired(_, peer, accepted) =>
      if peer !in n.access.allowed then Stay(n)
      else Stay(n).(outbox := n.outbox + multiset{Reply(peer, accepted)})
    case SendReply(_, r) =>
      if r !in n.outbox then Stay(n)
      else Stay(n).(outbox := n.outbox - multiset{r}, sent := multiset{Response(id, r.to, r.accepted)},
                    facts := [Answered(id, r.to, r.accepted)])
    case _ => Stay(n)
  }

  /** The other commands of a node. */
  function AccessMove(id: Id, n: Node, a: Action): Move {
    match a
    case PairByCode(_, peer, profile, relayUrl) => Store(id, n, peer, profile, relayUrl)
    case Dial(_, peer) =>
      var existing := Get(n.access.devices, peer);
      if existing.Some? && existing.value.status.Active? then Stay(n).(sent := multiset{Recognition(id, peer)})
      else Stay(n)
    case ForgetPeer(_, peer) => Stay(n).(op := Some(ForgetLocally(peer)), sent := multiset{Forgotten(id, peer)})
    case SetClock(_, now) => Stay(n).(clock := now)
    case RestartNode(_) =>
      Stay(n).(op := Some(Restart(false)), pending := map[], delivering := multiset{}, outbox := multiset{})
    case _ => Stay(n)
  }

  predicate IsAccessAction(a: Action) {
    a.PairByCode? || a.Dial? || a.ForgetPeer? || a.SetClock? || a.RestartNode?
  }

  function MoveOf(w: World, a: Action): Move {
    var n := At(w, Actor(a));
    if a.Deliver? then (if a.message in w.net then OnMessage(w, n, a.message, a.channel) else Stay(n))
    else if IsAccessAction(a) then AccessMove(Actor(a), n, a)
    else InviteMove(Actor(a), n, a)
  }

  function After(n: Node, mv: Move): Node {
    Node(if mv.op.Some? then PairedStore.Step(n.access, mv.op.value) else n.access,
         mv.pending, mv.delivering, mv.outbox, mv.clock)
  }

  function Apply(w: World, id: Id, mv: Move, taken: multiset<Message>): World {
    World(w.nodes[id := After(At(w, id), mv)], w.net - taken + mv.sent, w.log + mv.facts)
  }

  function Taken(a: Action): multiset<Message> {
    if a.Deliver? || a.Lose? then multiset{a.message} else multiset{}
  }

  function Step(w: World, a: Action): World {
    Apply(w, Actor(a), MoveOf(w, a), Taken(a))
  }

  function Run(w: World, actions: seq<Action>): World {
    if actions == [] then w else Step(Run(w, actions[..|actions| - 1]), actions[|actions| - 1])
  }

  // ------------------------------------------------------------------- mutual consent

  /** `peer` stored its own record of `owner`, and then answered yes. */
  ghost predicate Consented(log: seq<Fact>, peer: Id, owner: Id) {
    exists j, k :: 0 <= j < k < |log| && log[j] == Stored(peer, owner) && log[k] == Answered(peer, owner, true)
  }

  lemma {:induction false} ConsentLasts(log: seq<Fact>, more: seq<Fact>, peer: Id, owner: Id)
    ensures Consented(log, peer, owner) ==> Consented(log + more, peer, owner)
  {
    if Consented(log, peer, owner) {
      var j, k :| 0 <= j < k < |log| && log[j] == Stored(peer, owner) && log[k] == Answered(peer, owner, true);
      assert (log + more)[j] == log[j] && (log + more)[k] == log[k];
    }
  }

  function Is(f: Fact): Fact -> bool {
    x => x == f
  }

  ghost predicate NodeGood(w: World, id: Id) {
    var n := At(w, id);
    && Inv(n.access)
    && (forall peer :: peer in n.access.allowed ==> Stored(id, peer) in w.log)
    && (forall peer :: Reply(peer, true) in n.outbox ==> Stored(id, peer) in w.log)
    && (forall peer ::
          Count(w.log, Is(Committed(id, peer))) + One(peer in n.pending) <= Count(w.log, Is(Invited(id, peer))))
  }

  /** What every step of every node keeps. */
  ghost predicate Good(w: World) {
    && (forall id :: NodeGood(w, id))
    && (forall m :: m in w.net && m.Response? && m.accepted ==> Consented(w.log, m.from, m.to))
    && (forall i :: 0 <= i < |w.log| && w.log[i].Committed? ==> Consented(w.log[..i], w.log[i].peer, w.log[i].owner))
    && (forall owner, peer :: EachYesOnce(w, owner, peer))
  }

  /** Commits that were made and yeses still in flight together never exceed the yeses given. */
  ghost predicate EachYesOnce(w: World, owner: Id, peer: Id) {
    Count(w.log, Is(Committed(owner, peer))) + w.net[Response(peer, owner, true)]
    <= Count(w.log, Is(Answered(peer, owner, true)))
  }

  /** A pairing-host session is covered by `Pair`, and identity rotation is not part of these runs. */
  predicate NodeOp(op: Option<Op>) {
    op.Some? ==> WellFormed(op.value) && !op.value.HostPair? && op.value != Restart(true)
  }

  predicate Stores(op: Option<Op>, peer: Id) {
    op.Some? && op.value.Pair? && op.value.device.id == peer
  }

  /** The five kinds of history a move can add, and what each goes with. */
  predicate Shape(net: multiset<Message>, id: Id, n: Node, mv: Move) {
    && NodeOp(mv.op)
    && if mv.facts == [] then (mv.op.Some? ==> !mv.op.value.Pair?) && mv.pending.Keys <= n.pending.Keys
       else
         var f := mv.facts[0];
         && f.owner == id
         && (!f.Committed? ==> |mv.facts| == 1)
         && match f
            case Stored(_, peer) => Stores(mv.op, peer) && mv.pending == n.pending
            case Invited(_, peer) => mv.op.None? && mv.pending.Keys == n.pending.Keys + {peer}
            case Answered(_, peer, accepted) =>
              mv.op.None? && mv.pending == n.pending && Reply(peer, accepted) in n.outbox
            case Committed(_, peer) =>
              && mv.facts == [f, Stored(id, peer)]
              && Stores(mv.op, peer)
              && peer in n.pending && mv.pending == n.pending - {peer}
              && Response(peer, id, true) in net
  }

  lemma {:induction false} MessageMoveHasShape(w: World, n: Node, m: Message, channel: Channel)
    requires m in w.net
    ensures Shape(w.net, m.to, n, OnMessage(w, n, m, channel))
  {
  }

  lemma {:induction false} InviteMoveHasShape(net: multiset<Message>, id: Id, n: Node, a: Action)
    ensures Shape(net, id, n, InviteMove(id, n, a))
  {
    match a
    case InsertPending(_, peer, profile) => assert n.pending[peer := profile].Keys == n.pending.Keys + {peer};
    case _ =>
  }

  lemma {:induction false} AccessMoveHasShape(net: multiset<Message>, id: Id, n: Node, a: Action)
    ensures Shape(net, id, n, AccessMove(id, n, a))
  {
  }

  lemma {:induction false} MoveHasShape(w: World, a: Action)
    ensures Shape(w.net, Actor(a), At(w, Actor(a)), MoveOf(w, a))
  {
    var n := At(w, Actor(a));
    if a.Deliver? {
      if a.message in w.net { MessageMoveHasShape(w, n, a.message, a.channel); }
    } else if IsAccessAction(a) {
      AccessMoveHasShape(w.net, Actor(a), n, a);
    } else {
      InviteMoveHasShape(w.net, Actor(a), n, a);
    }
  }

  lemma {:induction false} CountConcat(s: seq<Fact>, t: seq<Fact>, f: Fact)
    ensures Count(s + t, Is(f)) == Count(s, Is(f)) + Count(t, Is(f))
  {
    if t == [] {
      assert s + t == s;
    } else {
      CountConcat(s, t[..|t| - 1], f);
      assert (s + t)[..|s + t| - 1] == s + t[..|t| - 1];
    }
  }

  /** What a shape adds to the counts: commits are paid for by pending invites. */
  lemma {:induction false} ShapeCounts(net: multiset<Message>, id: Id, n: Node, mv: Move, owner: Id, peer: Id)
    requires Shape(net, id, n, mv)
    ensures owner != id ==>
              Count(mv.facts, Is(Committed(owner, peer))) == Count(mv.facts, Is(Invited(owner, peer))) == 0
    ensures Count(mv.facts, Is(Committed(id, peer))) + One(peer in mv.pending)
            <= Count(mv.facts, Is(Invited(id, peer))) + One(peer in n.pending)
    ensures Stored(owner, peer) in mv.facts <==> owner == id && Stores(mv.op, peer)
  {
    if mv.facts != [] {
      var f := mv.facts[0];
      var g := Stored(id, f.peer);
      assert mv.facts == [f] || mv.facts == [f, g];
      FactCounts(f, g, Committed(owner, peer));
      FactCounts(f, g, Invited(owner, peer));
      FactCounts(f, g, Committed(id, peer));
      FactCounts(f, g, Invited(id, peer));
    }
  }

  lemma {:induction false} FactCounts(f: Fact, g: Fact, x: Fact)
    ensures Count([f], Is(x)) == One(f == x)
    ensures Count([f, g], Is(x)) == One(f == x) + One(g == x)
  {
    assert [f, g][..1] == [f] && [f][..0] == [];
  }

  /** A yes is prepared only for a stored peer, and sent only from the outbox. */
  ghost predicate Willing(id: Id, n: Node, mv: Move) {
    && (forall peer :: Reply(peer, true) in mv.outbox ==>
          Reply(peer, true) in n.outbox || peer in n.access.allowed || Stores(mv.op, peer))
    && (forall m :: m in mv.sent && m.Response? ==>
          m.from == id && Reply(m.to, m.accepted) in n.outbox && mv.facts == [Answered(id, m.to, m.accepted)])
  }

  lemma {:induction false} InviteMoveIsWilling(id: Id, n: Node, a: Action)
    ensures Willing(id, n, InviteMove(id, n, a))
  {
  }

  lemma {:induction false} AccessMoveIsWilling(id: Id, n: Node, a: Action)
    ensures Willing(id, n, AccessMove(id, n, a))
  {
  }

  lemma {:induction false} MessageMoveIsWilling(w: World, n: Node, m: Message, channel: Channel)
    ensures Willing(m.to, n, OnMessage(w, n, m, channel))
  {
  }

  lemma {:induction false} MoveIsWilling(w: World, a: Action)
    ensures Willing(Actor(a), At(w, Actor(a)), MoveOf(w, a))
  {
    var n := At(w, Actor(a));
    if a.Deliver? {
      MessageMoveIsWilling(w, n, a.message, a.channel);
    } else if IsAccessAction(a) {
      AccessMoveIsWilling(Actor(a), n, a);
    } else {
      InviteMoveIsWilling(Actor(a), n, a);
    }
  }

  lemma {:induction false} AllowedGrowsByPairing(a: Access, op: Op, id: Id)
    requires Inv(a) && WellFormed(op) && !op.HostPair?
    requires id in PairedStore.Step(a, op).allowed
    ensures id in a.allowed || (op.Pair? && op.device.id == id)
  {
  }

  /** The balance of one node's commits against its invites survives any node's move. */
  lemma {:induction false} BalanceKept(w: World, id: Id, mv: Move, owner: Id, peer: Id)
    requires Shape(w.net, id, At(w, id), mv) && NodeGood(w, owner)
    ensures var pending := if owner == id then mv.pending else At(w, owner).pending;
            Count(w.log + mv.facts, Is(Committed(owner, peer))) + One(peer in pending)
            <= Count(w.log + mv.facts, Is(Invited(owner, peer)))
  {
    CountConcat(w.log, mv.facts, Committed(owner, peer));
    CountConcat(w.log, mv.facts, Invited(owner, peer));
    ShapeCounts(w.net, id, At(w, id), mv, owner, peer);
  }

  lemma {:induction false} NodeStaysGood(w: World, id: Id, mv: Move, taken: multiset<Message>, owner: Id)
    requires Shape(w.net, id, At(w, id), mv) && Willing(id, At(w, id), mv) && NodeGood(w, owner)
    ensures NodeGood(Apply(w, id, mv, taken), owner)
  {
    var n, w' := At(w, id), Apply(w, id, mv, taken);
    forall peer ensures Count(w'.log, Is(Committed(owner, peer))) + One(peer in At(w', owner).pending)
                        <= Count(w'.log, Is(Invited(owner, peer)))
    {
      BalanceKept(w, id, mv, owner, peer);
    }
    if owner == id {
      forall peer | Stores(mv.op, peer) ensures Stored(id, peer) in w'.log {
        ShapeCounts(w.net, id, n, mv, id, peer);
      }
      if mv.op.Some? {
        StepKeepsInv(n.access, mv.op.value);
        forall peer | peer in At(w', id).access.allowed ensures Stored(id, peer) in w'.log {
          AllowedGrowsByPairing(n.access, mv.op.value, peer);
        }
      }
    }
  }

  /** Every answer in flight and every commit in the history keeps its consent. */
  lemma {:induction false} ConsentStays(w: World, id: Id, mv: Move, taken: multiset<Message>)
    requires Good(w) && Shape(w.net, id, At(w, id), mv) && Willing(id, At(w, id), mv)
    ensures var w' := Apply(w, id, mv, taken);
            && (forall m :: m in w'.net && m.Response? && m.accepted ==> Consented(w'.log, m.from, m.to))
            && (forall i :: 0 <= i < |w'.log| && w'.log[i].Committed? ==>
                  Consented(w'.log[..i], w'.log[i].peer, w'.log[i].owner))
  {
    var w' := Apply(w, id, mv, taken);
    assert NodeGood(w, id);
    forall m | m in w'.net && m.Response? && m.accepted ensures Consented(w'.log, m.from, m.to) {
      if m in w.net {
        ConsentLasts(w.log, mv.facts, m.from, m.to);
      } else {
        assert m in mv.sent;
        var j :| 0 <= j < |w.log| && w.log[j] == Stored(id, m.to);
        assert w'.log[j] == w.log[j] && w'.log[|w.log|] == mv.facts[0];
      }
    }
    forall i | 0 <= i < |w'.log| && w'.log[i].Committed?
      ensures Consented(w'.log[..i], w'.log[i].peer, w'.log[i].owner)
    {
      if i < |w.log| {
        assert w'.log[..i] == w.log[..i];
      } else {
        assert w'.log[i] == mv.facts[i - |w.log|];
        assert w'.log[..i] == w.log;
      }
    }
  }

  /** A commit takes the yes it rests on out of flight, and a yes goes into flight once, as it is given. */
  ghost predicate Spends(id: Id, mv: Move, taken: multiset<Message>) {
    && (forall peer :: Committed(id, peer) in mv.facts ==> taken == multiset{Response(peer, id, true)})
    && (forall m: Message :: m.Response? ==>
          mv.sent[m] <= One(m.from == id && mv.facts == [Answered(id, m.to, m.accepted)]))
  }

  /** A move that commits nobody and sends no answer. */
  ghost predicate Silent(mv: Move) {
    (forall f :: f in mv.facts ==> !f.Committed?) && (forall m :: m in mv.sent ==> !m.Response?)
  }

  lemma {:induction false} SilentSpends(id: Id, mv: Move, taken: multiset<Message>)
    requires Silent(mv)
    ensures Spends(id, mv, taken)
  {
  }

  lemma {:induction false} ReplySpends(id: Id, mv: Move, r: Reply)
    requires mv.facts == [Answered(id, r.to, r.accepted)] && mv.sent == multiset{Response(id, r.to, r.accepted)}
    ensures Spends(id, mv, multiset{})
  {
  }

  lemma {:induction false} InviteMoveSpends(id: Id, n: Node, a: Action)
    ensures Spends(id, InviteMove(id, n, a), multiset{})
  {
    if a.SendReply? && a.reply in n.outbox {
      ReplySpends(id, InviteMove(id, n, a), a.reply);
    } else {
      assert Silent(InviteMove(id, n, a));
      SilentSpends(id, InviteMove(id, n, a), multiset{});
    }
  }

  lemma {:induction false} AccessMoveSpends(id: Id, n: Node, a: Action)
    ensures Spends(id, AccessMove(id, n, a), multiset{})
  {
    assert Silent(AccessMove(id, n, a));
    SilentSpends(id, AccessMove(id, n, a), multiset{});
  }

  lemma {:induction false} MessageMoveSpends(w: World, n: Node, m: Message, channel: Channel)
    ensures Spends(m.to, OnMessage(w, n, m, channel), multiset{m})
  {
  }

  lemma {:induction false} MoveSpends(w: World, a: Action)
    ensures Spends(Actor(a), MoveOf(w, a), Taken(a))
  {
    var id, n := Actor(a), At(w, Actor(a));
    if a.Deliver? && a.message in w.net {
      MessageMoveSpends(w, n, a.message, a.channel);
    } else if a.Deliver? || a.Lose? {
      SilentSpends(id, Stay(n), Taken(a));
    } else if IsAccessAction(a) {
      AccessMoveSpends(id, n, a);
    } else {
      InviteMoveSpends(id, n, a);
    }
  }

  /** What a shape adds to the commits and the yeses between two nodes. */
  lemma {:induction false} ShapeYeses(net: multiset<Message>, id: Id, n: Node, mv: Move, owner: Id, peer: Id)
    requires Shape(net, id, n, mv)
    ensures Count(mv.facts, Is(Committed(owner, peer))) == One(Committed(owner, peer) in mv.facts)
    ensures Count(mv.facts, Is(Answered(peer, owner, true))) == One(mv.facts == [Answered(peer, owner, true)])
    ensures Committed(owner, peer) in mv.facts ==> owner == id && Response(peer, owner, true) in net
  {
    if mv.facts != [] {
      var f := mv.facts[0];
      var g := Stored(id, f.peer);
      assert mv.facts == [f] || mv.facts == [f, g];
      FactCounts(f, g, Committed(owner, peer));
      FactCounts(f, g, Answered(peer, owner, true));
    }
  }

  lemma {:induction false} YesesKept(w: World, id: Id, mv: Move, taken: multiset<Message>, owner: Id, peer: Id)
    requires EachYesOnce(w, owner, peer) && Shape(w.net, id, At(w, id), mv) && Spends(id, mv, taken)
    ensures EachYesOnce(Apply(w, id, mv, taken), owner, peer)
  {
    var yes := Response(peer, owner, true);
    CountConcat(w.log, mv.facts, Committed(owner, peer));
    CountConcat(w.log, mv.facts, Answered(peer, owner, true));
    ShapeYeses(w.net, id, At(w, id), mv, owner, peer);
    assert mv.sent[yes] <= One(mv.facts == [Answered(peer, owner, true)]);
    if Committed(owner, peer) in mv.facts {
      assert taken[yes] == 1 && w.net[yes] >= 1;
    }
  }

  lemma {:induction false} StepKeepsGood(w: World, a: Action)
    requires Good(w)
    ensures Good(Step(w, a))
  {
    MoveHasShape(w, a);
    MoveIsWilling(w, a);
    MoveSpends(w, a);
    forall owner ensures NodeGood(Step(w, a), owner) {
      assert NodeGood(w, owner);
      NodeStaysGood(w, Actor(a), MoveOf(w, a), Taken(a), owner);
    }
    forall owner, peer ensures EachYesOnce(Step(w, a), owner, peer) {
      YesesKept(w, Actor(a), MoveOf(w, a), Taken(a), owner, peer);
    }
    ConsentStays(w, Actor(a), MoveOf(w, a), Taken(a));
  }

  lemma {:induction false} RunIsGood(actions: seq<Action>)
    ensures Good(Run(NEW_WORLD, actions))
  {
    if actions != [] {
      RunIsGood(actions[..|actions| - 1]);
      StepKeepsGood(Run(NEW_WORLD, actions[..|actions| - 1]), actions[|actions| - 1]);
    }
  }

  /**
    Mutual consent. In every run, whenever a node commits a nearby peer, that peer had stored its
    own record of the node and then answered yes; every commit uses up a yes of its own; and a node
    never commits a peer more often than it made an invite to exactly that peer pending.
   */
  lemma {:induction false} MutualConsent(actions: seq<Action>, owner: Id, peer: Id)
    ensures var log := Run(NEW_WORLD, actions).log;
            && (forall i :: 0 <= i < |log| && log[i] == Committed(owner, peer) ==> Consented(log[..i], peer, owner))
            && Count(log, Is(Committed(owner, peer))) <= Count(log, Is(Invited(owner, peer)))
            && Count(log, Is(Committed(owner, peer))) <= Count(log, Is(Answered(peer, owner, true)))
  {
    RunIsGood(actions);
    assert NodeGood(Run(NEW_WORLD, actions), owner) && EachYesOnce(Run(NEW_WORLD, actions), owner, peer);
  }

  lemma {:induction false} CommitShape(net: multiset<Message>, id: Id, n: Node, mv: Move, owner: Id, peer: Id)
    requires Shape(net, id, n, mv) && Committed(owner, peer) in mv.facts
    ensures owner == id && peer in n.pending && peer !in mv.pending && Response(peer, owner, true) in net
  {
    assert mv.facts[0] == Committed(owner, peer);
  }

  /** A node commits only in a step that finds, and removes, a pending invite to exactly that peer. */
  lemma {:induction false} CommitConsumesInvite(w: World, a: Action, owner: Id, peer: Id)
    requires Committed(owner, peer) in MoveOf(w, a).facts
    ensures peer in At(w, owner).pending && peer !in At(Step(w, a), owner).pending
    ensures Response(peer, owner, true) in w.net
  {
    MoveHasShape(w, a);
    CommitShape(w.net, Actor(a), At(w, Actor(a)), MoveOf(w, a), owner, peer);
  }

  // --------------------------------------------------------- what messages and commands do

  ghost predicate Holds(n: Node, peer: Id, profile: Profile) {
    var record := Get(n.access.devices, peer);
    && record.Some? && record.value.status == Active && record.value.profile == profile
    && peer in n.access.allowed
  }

  /** Nobody but `id` is changed. */
  ghost predicate OnlyChanges(w: World, w': World, id: Id) {
    forall other :: other != id ==> At(w', other) == At(w, other)
  }

  lemma {:induction false} StepIsLocal(w: World, a: Action)
    ensures OnlyChanges(w, Step(w, a), Actor(a))
  {
  }

  /**
    The answer to a pending invite, read on a session of an unpaired peer. A yes commits: the peer is
    stored as active under the profile of the invite, and allowed. A no changes no record. Either way
    the invite is no longer pending.
   */
  lemma {:induction false} AnswerIsTaken(w: World, id: Id, peer: Id, accepted: bool)
    requires peer in At(w, id).pending && Response(peer, id, accepted) in w.net
    ensures var w' := Step(w, Deliver(Response(peer, id, accepted), Inbound(false)));
            && At(w', id).pending == At(w, id).pending - {peer}
            && w'.log == w.log + (if accepted then [Committed(id, peer), Stored(id, peer)] else [])
            && (accepted ==> Holds(At(w', id), peer, At(w, id).pending[peer]))
            && (!accepted ==> At(w', id).access == At(w, id).access)
            && OnlyChanges(w, w', id)
  {
    var n := At(w, id);
    StepIsLocal(w, Deliver(Response(peer, id, accepted), Inbound(false)));
    if accepted {
      var op := Pair(NewDevice(peer, n.pending[peer], n.clock, None));
      PairKeepsTimeAndTrust(n.access, op, Get(n.access.devices, peer));
    }
  }

  /** An answer without a pending invite, or from a paired peer, changes nothing. */
  lemma {:induction false} OtherAnswersAreIgnored(w: World, id: Id, peer: Id, accepted: bool, channel: Channel)
    requires peer !in At(w, id).pending || channel != Inbound(false)
    ensures var w' := Step(w, Deliver(Response(peer, id, accepted), channel));
            At(w', id) == At(w, id) && w'.log == w.log
  {
  }

  /** A refusal turns an active record off exactly when it is read ten seconds after the pairing or later. */
  lemma {:induction false} RefusalUnpairsIff(w: World, id: Id, peer: Id, committed: bool, channel: Channel)
    requires Inv(At(w, id).access) && Has(At(w, id).access.devices, peer) && Refusal(peer, id, committed) in w.net
    requires Get(At(w, id).access.devices, peer).value.status == Active
    ensures var n, n' := At(w, id), At(Step(w, Deliver(Refusal(peer, id, committed), channel)), id);
            var late := n.clock >= Get(n.access.devices, peer).value.pairedAt + 10_000;
            && (late ==> Get(n'.access.devices, peer).Some?
                         && Get(n'.access.devices, peer).value.status == UnpairedRemotely
                         && peer !in n'.access.allowed)
            && (!late ==> n' == n)
  {
    var n := At(w, id);
    RowOpChangesOneField(n.access, InferUnpair(peer));
    UnpairingTakesAccess(n.access, InferUnpair(peer));
  }

  /** A Forget that is heard from a peer on record takes its access, and an active record is marked. */
  lemma {:induction false} ForgetTakesAccess(w: World, id: Id, peer: Id, channel: Channel)
    requires Inv(At(w, id).access) && Has(At(w, id).access.devices, peer) && Forgotten(peer, id) in w.net
    requires Get(At(w, id).access.devices, peer).value.status == Active
    ensures var n' := At(Step(w, Deliver(Forgotten(peer, id), channel)), id);
            && Get(n'.access.devices, peer).Some?
            && Get(n'.access.devices, peer).value.status == UnpairedRemotely
            && peer !in n'.access.allowed
  {
    var n := At(w, id);
    assert Get(n.access.devices, peer).value in n.access.devices;
    RowOpChangesOneField(n.access, InferUnpair(peer));
    RowOpChangesOneField(n.access, ForgetReceived(peer));
    UnpairingTakesAccess(n.access, InferUnpair(peer));
    UnpairingTakesAccess(n.access, ForgetReceived(peer));
  }

  /** A Recognition is refused exactly when neither the session nor the allowlist knows the peer; else it is noted. */
  lemma {:induction false} RecognitionIsAnswered(w: World, id: Id, peer: Id, peerIsPaired: bool)
    requires Recognition(peer, id) in w.net
    ensures var n := At(w, id);
            var w' := Step(w, Deliver(Recognition(peer, id), Inbound(peerIsPaired)));
            var known := peerIsPaired || peer in n.access.allowed;
            var refusal := Refusal(id, peer, Stored(id, peer) in w.log);
            && w'.net == w.net - multiset{Recognition(peer, id)} + (if known then multiset{} else multiset{refusal})
            && (!known ==> At(w', id) == n)
            && (known && Has(n.access.devices, peer) ==>
                  Get(At(w', id).access.devices, peer)
                  == Some(Get(n.access.devices, peer).value.(lastSeenAt := n.clock)))
  {
    var n := At(w, id);
    if Has(n.access.devices, peer) {
      RowOpChangesOneField(n.access, TouchDevice(peer, n.clock));
    }
  }

  /** Accepting stores and allows the sender, and prepares a yes. */
  lemma {:induction false} AcceptIsPrepared(w: World, id: Id, peer: Id, profile: Profile)
    ensures var n' := At(Step(w, AcceptInvite(id, peer, profile)), id);
            Holds(n', peer, profile) && n'.outbox == At(w, id).outbox + multiset{Reply(peer, true)}
  {
    var n := At(w, id);
    PairKeepsTimeAndTrust(n.access, Pair(NewDevice(peer, profile, n.clock, None)), Get(n.access.devices, peer));
  }

  /** A command changes its own node as its move says, and takes nothing out of flight. */
  lemma {:induction false} CommandApplies(w: World, a: Action)
    requires !a.Deliver? && !a.Lose?
    ensures At(Step(w, a), Actor(a)) == After(At(w, Actor(a)), MoveOf(w, a))
    ensures Step(w, a).net == w.net + MoveOf(w, a).sent
  {
    assert w.net - multiset{} == w.net;
  }

  /** Declining stores nobody and prepares a no. */
  lemma {:induction false} DeclineIsPrepared(w: World, id: Id, peer: Id)
    ensures var n := At(w, id);
            At(Step(w, DeclineInvite(id, peer)), id) == n.(outbox := n.outbox + multiset{Reply(peer, false)})
  {
    CommandApplies(w, DeclineInvite(id, peer));
  }

  /** A paired peer is answered as asked, and nobody else is. */
  lemma {:induction false} PairedAnswerIsPrepared(w: World, id: Id, peer: Id, accepted: bool)
    ensures var n := At(w, id);
            At(Step(w, RespondPaired(id, peer, accepted)), id)
            == if peer in n.access.allowed then n.(outbox := n.outbox + multiset{Reply(peer, accepted)}) else n
  {
    CommandApplies(w, RespondPaired(id, peer, accepted));
  }

  /** Pairing by code stores and allows the peer, with the relay it gave. */
  lemma {:induction false} CodePairs(w: World, id: Id, peer: Id, profile: Profile, relayUrl: Option<string>)
    ensures var n' := At(Step(w, PairByCode(id, peer, profile, relayUrl)), id);
            && Holds(n', peer, profile)
            && (relayUrl.Some? ==> Get(n'.access.devices, peer).value.relayUrl == relayUrl)
  {
    var n := At(w, id);
    PairKeepsTimeAndTrust(n.access, Pair(NewDevice(peer, profile, n.clock, relayUrl)), Get(n.access.devices, peer));
  }

  /** Only a peer whose record is active is sent a Recognition. */
  lemma {:induction false} DialRecognizes(w: World, id: Id, peer: Id)
    ensures var known := Get(At(w, id).access.devices, peer);
            var active := known.Some? && known.value.status == Active;
            && At(Step(w, Dial(id, peer)), id) == At(w, id)
            && Step(w, Dial(id, peer)).net == w.net + (if active then multiset{Recognition(id, peer)} else multiset{})
  {
    CommandApplies(w, Dial(id, peer));
    assert MoveOf(w, Dial(id, peer)) == AccessMove(id, At(w, id), Dial(id, peer));
  }

  /** A prepared answer leaves the outbox as a message to the peer it is for. */
  lemma {:induction false} AnswerIsSent(w: World, id: Id, r: Reply)
    requires r in At(w, id).outbox
    ensures var w' := Step(w, SendReply(id, r));
            && At(w', id) == At(w, id).(outbox := At(w, id).outbox - multiset{r})
            && w'.net == w.net + multiset{Response(id, r.to, r.accepted)}
  {
  }

  /** Forgetting a peer removes its record and its access, and tells it. */
  lemma {:induction false} ForgettingIsTold(w: World, id: Id, peer: Id)
    requires Inv(At(w, id).access)
    ensures var w' := Step(w, ForgetPeer(id, peer));
            && !Has(At(w', id).access.devices, peer) && peer !in At(w', id).access.allowed
            && w'.net == w.net + multiset{Forgotten(id, peer)}
  {
    UnpairingTakesAccess(At(w, id).access, ForgetLocally(peer));
  }

  /** A restart forgets every open exchange, keeps every record, and allows whom the records allow. */
  lemma {:induction false} RestartKeepsRecords(w: World, id: Id)
    ensures var n, n' := At(w, id), At(Step(w, RestartNode(id)), id);
            && n'.pending == map[] && n'.outbox == multiset{} && n'.delivering == multiset{}
            && n'.access.devices == n.access.devices
            && forall peer :: peer in n'.access.allowed <==>
                 exists d :: d in n.access.devices && d.id == peer && d.status != UnpairedRemotely
  {
    CommandApplies(w, RestartNode(id));
  }

  /** Pairing a known peer again does not open a new grace period. */
  lemma {:induction false} RepairKeepsGrace(w: World, a: Action, peer: Id)
    requires Has(At(w, Actor(a)).access.devices, peer) && Stores(MoveOf(w, a).op, peer)
    ensures Settling(At(Step(w, a), Actor(a)), peer) == Settling(At(w, Actor(a)), peer)
  {
    var n, mv := At(w, Actor(a)), MoveOf(w, a);
    PairKeepsTimeAndTrust(n.access, mv.op.value, Get(n.access.devices, peer));
    StoringKeepsClock(w, a);
  }

  lemma {:induction false} StoringKeepsClock(w: World, a: Action)
    ensures MoveOf(w, a).op.Some? ==> MoveOf(w, a).clock == At(w, Actor(a)).clock
  {
  }

  // ------------------------------------------------------- no false unpair while settling

  predicate Links(x: Id, y: Id, a: Id, b: Id) {
    (x == a && y == b) || (x == b && y == a)
  }

  /** `a` holds a record of `b` exactly when it stored one, and then the record is active and `b` is allowed. */
  predicate Half(w: World, a: Id, b: Id) {
    var access := At(w, a).access;
    && (Stored(a, b) in w.log <==> Has(access.devices, b))
    && (Has(access.devices, b) ==> Get(access.devices, b).value.status == Active && b in access.allowed)
  }

  /** Between the two, no unpairing is in flight, and every refusal was issued before its issuer stored its half. */
  ghost predicate NetClean(w: World, a: Id, b: Id) {
    forall m :: m in w.net && Links(m.from, m.to, a, b) ==> !m.Forgotten? && (m.Refusal? ==> !m.committed)
  }

  ghost predicate Settled(w: World, a: Id, b: Id) {
    Half(w, a, b) && Half(w, b, a) && NetClean(w, a, b)
  }

  /** A refusal sent before its issuer stored its half is processed without a record, or within the grace period. */
  predicate Timely(w: World, act: Action, a: Id, b: Id) {
    act.Deliver? && act.message.Refusal? && !act.message.committed && act.message in w.net
    && Links(act.message.from, act.message.to, a, b)
    ==>
    var n := At(w, act.message.to);
    !Has(n.access.devices, act.message.from) || Settling(n, act.message.from)
  }

  predicate NoForget(act: Action, a: Id, b: Id) {
    act.ForgetPeer? ==> !Links(act.node, act.peer, a, b)
  }

  /** The operations that leave an active record of `b` active. */
  predicate Harmless(mv: Move, b: Id) {
    mv.op.Some? && Subject(mv.op.value) == Some(b) ==> mv.op.value.Pair? || mv.op.value.TouchDevice?
  }

  /** A move by another node, or one that is harmless to `b`, keeps `a`'s half. */
  lemma {:induction false} HalfKept(w: World, id: Id, mv: Move, taken: multiset<Message>, a: Id, b: Id)
    requires Inv(At(w, a).access) && Half(w, a, b) && Shape(w.net, id, At(w, id), mv)
    requires id == a ==> Harmless(mv, b)
    ensures Half(Apply(w, id, mv, taken), a, b)
  {
    ShapeCounts(w.net, id, At(w, id), mv, a, b);
    if id == a && mv.op.Some? {
      var access, op := At(w, a).access, mv.op.value;
      if Subject(op) != Some(b) {
        OthersUntouched(access, op, b);
      } else if op.Pair? {
        GetAfterRemember(access.devices, op.device, b);
      } else {
        var i := Find(access.devices, b);
        if i < |access.devices| {
          GetAfterUpdate(access.devices, i, access.devices[i].(lastSeenAt := op.now), b);
        }
      }
    }
  }

  lemma {:induction false} MessageHarmless(w: World, n: Node, m: Message, channel: Channel, b: Id)
    requires m.from == b ==> !m.Forgotten? && (m.Refusal? ==> Settling(n, b))
    ensures Harmless(OnMessage(w, n, m, channel), b)
  {
  }

  lemma {:induction false} CommandHarmless(id: Id, n: Node, act: Action, b: Id)
    requires !act.ForgetPeer? || act.peer != b
    ensures Harmless(AccessMove(id, n, act), b) && Harmless(InviteMove(id, n, act), b)
  {
  }

  /** A refusal for a node that holds no record of its issuer. */
  predicate RefusesNobody(w: World, act: Action, a: Id, b: Id) {
    act.Deliver? && act.message in w.net && act.message.Refusal?
    && act.message.to == a && act.message.from == b && !Has(At(w, a).access.devices, b)
  }

  lemma {:induction false} MoveHarmless(w: World, act: Action, a: Id, b: Id)
    requires NetClean(w, a, b) && NoForget(act, a, b) && Timely(w, act, a, b)
    requires Actor(act) == a && !RefusesNobody(w, act, a, b)
    ensures Harmless(MoveOf(w, act), b)
  {
    if !act.Deliver? {
      CommandHarmless(a, At(w, a), act, b);
    } else if act.message in w.net {
      MessageHarmless(w, At(w, a), act.message, act.channel, b);
    }
  }

  lemma {:induction false} StepKeepsHalf(w: World, act: Action, a: Id, b: Id)
    requires Good(w) && Settled(w, a, b) && NoForget(act, a, b) && Timely(w, act, a, b)
    ensures Half(Step(w, act), a, b)
  {
    if RefusesNobody(w, act, a, b) {
      NothingToUnpair(w, act, a, b);
    } else {
      assert NodeGood(w, a);
      MoveHasShape(w, act);
      if Actor(act) == a {
        MoveHarmless(w, act, a, b);
      }
      HalfKept(w, Actor(act), MoveOf(w, act), Taken(act), a, b);
    }
  }

  /** Without a record, a refusal changes nothing. */
  lemma {:induction false} NothingToUnpair(w: World, act: Action, a: Id, b: Id)
    requires RefusesNobody(w, act, a, b)
    ensures At(Step(w, act), a).access == At(w, a).access && Step(w, act).log == w.log
  {
  }

  /** A node that stored its half does not refuse the other any more, so no late refusal is ever issued. */
  lemma {:induction false} StepKeepsNetClean(w: World, act: Action, a: Id, b: Id)
    requires Settled(w, a, b) && NoForget(act, a, b)
    ensures NetClean(Step(w, act), a, b)
  {
    var w' := Step(w, act);
    forall m | m in w'.net && Links(m.from, m.to, a, b) ensures !m.Forgotten? && (m.Refusal? ==> !m.committed) {
      if m !in w.net {
        assert m in MoveOf(w, act).sent;
        SentIsOwn(w, act, m);
      }
    }
  }

  lemma {:induction false} CommandsSend(id: Id, n: Node, act: Action, m: Message)
    requires m in AccessMove(id, n, act).sent || m in InviteMove(id, n, act).sent
    ensures m.from == id && !m.Refusal? && (m.Forgotten? ==> act.ForgetPeer? && act.peer == m.to)
  {
  }

  lemma {:induction false} MessagesSend(w: World, n: Node, received: Message, channel: Channel, m: Message)
    requires m in OnMessage(w, n, received, channel).sent
    ensures m.from == received.to && m.Refusal? && m.to !in n.access.allowed
    ensures m.committed == (Stored(m.from, m.to) in w.log)
  {
  }

  lemma {:induction false} SentIsOwn(w: World, act: Action, m: Message)
    requires m in MoveOf(w, act).sent
    ensures m.from == Actor(act)
    ensures m.Forgotten? ==> act == ForgetPeer(m.from, m.to)
    ensures m.Refusal? ==> m.to !in At(w, m.from).access.allowed && m.committed == (Stored(m.from, m.to) in w.log)
  {
    if act.Deliver? && act.message in w.net {
      MessagesSend(w, At(w, Actor(act)), act.message, act.channel, m);
    } else if !act.Deliver? {
      CommandsSend(Actor(act), At(w, Actor(act)), act, m);
    }
  }

  ghost predicate ForgetFree(actions: seq<Action>, a: Id, b: Id) {
    forall act :: act in actions ==> NoForget(act, a, b)
  }

  ghost predicate TimelyRun(actions: seq<Action>, a: Id, b: Id) {
    forall n :: 0 <= n < |actions| ==> Timely(Run(NEW_WORLD, actions[..n]), actions[n], a, b)
  }

  predicate RecordIsActive(devices: seq<Device>, peer: Id) {
    var record := Get(devices, peer);
    record.Some? ==> record.value.status == Active
  }

  predicate RecordActive(w: World, a: Id, b: Id) {
    RecordIsActive(At(w, a).access.devices, b)
  }

  lemma {:induction false} PrefixToo(actions: seq<Action>, k: nat, a: Id, b: Id)
    requires ForgetFree(actions, a, b) && k <= |actions|
    ensures ForgetFree(actions[..k], a, b)
    ensures TimelyRun(actions, a, b) ==> TimelyRun(actions[..k], a, b)
  {
    assert forall n :: 0 <= n < k ==> actions[..k][..n] == actions[..n];
  }

  lemma {:induction false} RunStaysSettled(actions: seq<Action>, a: Id, b: Id)
    requires ForgetFree(actions, a, b) && TimelyRun(actions, a, b)
    ensures Settled(Run(NEW_WORLD, actions), a, b)
  {
    if actions != [] {
      var last := |actions| - 1;
      PrefixToo(actions, last, a, b);
      RunStaysSettled(actions[..last], a, b);
      RunIsGood(actions[..last]);
      StepStaysSettled(Run(NEW_WORLD, actions[..last]), actions[last], a, b);
    }
  }

  lemma {:induction false} StepStaysSettled(w: World, act: Action, a: Id, b: Id)
    requires Good(w) && Settled(w, a, b) && NoForget(act, a, b) && Timely(w, act, a, b)
    ensures Settled(Step(w, act), a, b)
  {
    StepKeepsHalf(w, act, a, b);
    StepKeepsHalf(w, act, b, a);
    StepKeepsNetClean(w, act, a, b);
  }

  /**
    No false unpair while settling. In a run where neither side forgets the other and every refusal
    issued before its issuer's commit is processed within the grace period, a stored record stays
    active and allowed, and nobody refuses a peer it has stored.
   */
  lemma {:induction false} NoFalseUnpair(actions: seq<Action>, a: Id, b: Id)
    requires ForgetFree(actions, a, b) && TimelyRun(actions, a, b)
    ensures var w := Run(NEW_WORLD, actions);
            && (Stored(a, b) in w.log ==>
                  Get(At(w, a).access.devices, b).Some? && RecordActive(w, a, b) && b in At(w, a).access.allowed)
            && (forall m :: m in w.net && m.Refusal? && m.from == b && m.to == a ==> !m.committed)
  {
    RunStaysSettled(actions, a, b);
  }

  predicate BothActive(w: World, a: Id, b: Id) {
    RecordActive(w, a, b) && RecordActive(w, b, a)
  }

  /** A late refusal is what unpairs: it turns an active record off, in any world. */
  lemma {:induction false} LateRefusalUnpairs(w: World, act: Action, a: Id, b: Id)
    requires !Timely(w, act, a, b) && BothActive(w, a, b)
    ensures !BothActive(Step(w, act), a, b)
  {
    var n, peer := At(w, act.message.to), act.message.from;
    var i := Find(n.access.devices, peer);
    GetAfterUpdate(n.access.devices, i, n.access.devices[i].(status := UnpairedRemotely), peer);
  }

  /** The grace period is exactly what is needed: without forgetting, records stay active iff no refusal is late. */
  lemma {:induction false} ActiveIffTimely(actions: seq<Action>, a: Id, b: Id)
    requires ForgetFree(actions, a, b)
    ensures TimelyRun(actions, a, b) <==>
            forall n :: 0 <= n <= |actions| ==> BothActive(Run(NEW_WORLD, actions[..n]), a, b)
  {
    if TimelyRun(actions, a, b) {
      forall n | 0 <= n <= |actions| ensures BothActive(Run(NEW_WORLD, actions[..n]), a, b) {
        PrefixToo(actions, n, a, b);
        RunStaysSettled(actions[..n], a, b);
      }
    } else {
      LateRunUnpairs(actions, a, b);
    }
  }

  lemma {:induction false} LateRunUnpairs(actions: seq<Action>, a: Id, b: Id)
    requires !TimelyRun(actions, a, b)
    ensures exists n :: 0 <= n <= |actions| && !BothActive(Run(NEW_WORLD, actions[..n]), a, b)
  {
    var n :| 0 <= n < |actions| && !Timely(Run(NEW_WORLD, actions[..n]), actions[n], a, b);
    if BothActive(Run(NEW_WORLD, actions[..n]), a, b) {
      LateRefusalUnpairs(Run(NEW_WORLD, actions[..n]), actions[n], a, b);
      RunSnoc(actions, n);
      assert !BothActive(Run(NEW_WORLD, actions[..n + 1]), a, b);
    }
  }

  lemma {:induction false} RunSnoc(actions: seq<Action>, n: nat)
    requires n < |actions|
    ensures Run(NEW_WORLD, actions[..n + 1]) == Step(Run(NEW_WORLD, actions[..n]), actions[n])
  {
    assert actions[..n + 1][..n] == actions[..n];
  }

  /**
    A scene with nodes 1 and 2: node 1 holds an active record of node 2 from time 0, node 2 has
    the given standing, and only `net` is in flight.
   */
  predicate Scene(w: World, clock: nat, allowed: set<Id>, net: multiset<Message>, profile: Profile) {
    && At(w, 1).access == Access([NewDevice(2, profile, 0, None)], {2}) && At(w, 1).clock == clock
    && At(w, 2).access.allowed == allowed && w.net == net
    && (1 !in allowed ==> w.log == [Stored(1, 2)])
  }

  lemma {:induction false} SceneOpens(p: Profile)
    ensures Scene(Step(NEW_WORLD, PairByCode(1, 2, p, None)), 0, {}, multiset{}, p)
  {
  }

  lemma {:induction false} SceneDials(w: World, p: Profile)
    requires Scene(w, 0, {}, multiset{}, p)
    ensures Scene(Step(w, Dial(1, 2)), 0, {}, multiset{Recognition(1, 2)}, p)
  {
    var d := NewDevice(2, p, 0, None);
    assert At(w, 1).access.devices == [d] && Get([d], 2) == Some(d);
  }

  lemma {:induction false} SceneRefuses(w: World, p: Profile)
    requires Scene(w, 0, {}, multiset{Recognition(1, 2)}, p)
    ensures Scene(Step(w, Deliver(Recognition(1, 2), Inbound(false))), 0, {}, multiset{Refusal(2, 1, false)}, p)
  {
  }

  lemma {:induction false} SceneCommits(w: World, p: Profile)
    requires Scene(w, 0, {}, multiset{Refusal(2, 1, false)}, p)
    ensures Scene(Step(w, PairByCode(2, 1, p, None)), 0, {1}, multiset{Refusal(2, 1, false)}, p)
  {
  }

  lemma {:induction false} SceneWaits(w: World, p: Profile)
    requires Scene(w, 0, {1}, multiset{Refusal(2, 1, false)}, p)
    ensures var late := RECENT_PAIRING_GRACE_MS;
            Scene(Step(w, SetClock(1, late)), late, {1}, multiset{Refusal(2, 1, false)}, p)
  {
  }

  lemma {:induction false} SceneUnpairs(w: World, p: Profile)
    requires Scene(w, RECENT_PAIRING_GRACE_MS, {1}, multiset{Refusal(2, 1, false)}, p)
    ensures var w' := Step(w, Deliver(Refusal(2, 1, false), Outbound));
            !RecordActive(w', 1, 2) && 1 in At(w', 2).access.allowed
  {
  }

  ghost predicate Reaches(actions: seq<Action>, w: World) {
    ForgetFree(actions, 1, 2) && w == Run(NEW_WORLD, actions)
  }

  /** `w` is reached by a run in which nodes 1 and 2 never forget each other. */
  ghost predicate Reached(w: World) {
    exists actions :: Reaches(actions, w)
  }

  lemma {:induction false} ReachesNext(actions: seq<Action>, w: World, act: Action)
    requires Reaches(actions, w) && NoForget(act, 1, 2)
    ensures Reaches(actions + [act], Step(w, act))
  {
    assert (actions + [act])[..|actions|] == actions;
  }

  lemma {:induction false} NextReached(w: World, act: Action) returns (w': World)
    requires Reached(w) && NoForget(act, 1, 2)
    ensures Reached(w') && w' == Step(w, act)
  {
    var actions :| Reaches(actions, w);
    w' := Step(w, act);
    ReachesNext(actions, w, act);
  }

  /** A false unpair does happen: a refusal read after the grace period turns off a pairing both sides hold. */
  lemma {:induction false} FalseUnpairHappens(p: Profile)
    ensures exists w :: Reached(w) && !RecordActive(w, 1, 2) && 1 in At(w, 2).access.allowed
  {
    var w := SceneReached(p);
    SceneUnpairs(w, p);
    w := NextReached(w, Deliver(Refusal(2, 1, false), Outbound));
  }

  lemma {:induction false} SceneReached(p: Profile) returns (w: World)
    ensures Reached(w) && Scene(w, RECENT_PAIRING_GRACE_MS, {1}, multiset{Refusal(2, 1, false)}, p)
  {
    w := RefusalReached(p);
    SceneCommits(w, p);
    w := NextReached(w, PairByCode(2, 1, p, None));
    SceneWaits(w, p);
    w := NextReached(w, SetClock(1, RECENT_PAIRING_GRACE_MS));
  }

  lemma {:induction false} RefusalReached(p: Profile) returns (w: World)
    ensures Reached(w) && Scene(w, 0, {}, multiset{Refusal(2, 1, false)}, p)
  {
    assert Reaches([], NEW_WORLD);
    SceneOpens(p);
    w := NextReached(NEW_WORLD, PairByCode(1, 2, p, None));
    SceneDials(w, p);
    w := NextReached(w, Dial(1, 2));
    SceneRefuses(w, p);
    w := NextReached(w, Deliver(Recognition(1, 2), Inbound(false)));
  }

  // ------------------------------------------------------------------ a pairing that succeeds

  predicate Meeting(w: World, one: Node, two: Node, net: multiset<Message>) {
    At(w, 1) == one && At(w, 2) == two && w.net == net
  }

  function Paired(peer: Id, p: Profile): Access {
    Access([NewDevice(peer, p, 0, None)], {peer})
  }

  lemma {:induction false} MeetingInvites()
    ensures Meeting(Step(NEW_WORLD, SendInvite(1, 2)), NEW_NODE.(delivering := multiset{2}), NEW_NODE,
                    multiset{Invite(1, 2)})
  {
  }

  lemma {:induction false} MeetingPends(w: World, p: Profile)
    requires Meeting(w, NEW_NODE.(delivering := multiset{2}), NEW_NODE, multiset{Invite(1, 2)})
    ensures Meeting(Step(w, InsertPending(1, 2, p)), NEW_NODE.(pending := map[2 := p]), NEW_NODE,
                    multiset{Invite(1, 2)})
  {
  }

  lemma {:induction false} MeetingAccepts(w: World, p: Profile, q: Profile)
    requires Meeting(w, NEW_NODE.(pending := map[2 := p]), NEW_NODE, multiset{Invite(1, 2)})
    ensures Meeting(Step(w, AcceptInvite(2, 1, q)), NEW_NODE.(pending := map[2 := p]),
                    NEW_NODE.(access := Paired(1, q), outbox := multiset{Reply(1, true)}), multiset{Invite(1, 2)})
  {
  }

  lemma {:induction false} MeetingReplies(w: World, p: Profile, q: Profile)
    requires Meeting(w, NEW_NODE.(pending := map[2 := p]),
                     NEW_NODE.(access := Paired(1, q), outbox := multiset{Reply(1, true)}), multiset{Invite(1, 2)})
    ensures Meeting(Step(w, SendReply(2, Reply(1, true))), NEW_NODE.(pending := map[2 := p]),
                    NEW_NODE.(access := Paired(1, q)), multiset{Invite(1, 2), Response(2, 1, true)})
  {
  }

  lemma {:induction false} MeetingCommits(w: World, p: Profile, q: Profile)
    requires Meeting(w, NEW_NODE.(pending := map[2 := p]), NEW_NODE.(access := Paired(1, q)),
                     multiset{Invite(1, 2), Response(2, 1, true)})
    ensures var w' := Step(w, Deliver(Response(2, 1, true), Inbound(false)));
            Holds(At(w', 1), 2, p) && Holds(At(w', 2), 1, q)
  {
    AnswerIsTaken(w, 1, 2, true);
    OneRecord(1, q);
  }

  lemma {:induction false} OneRecord(peer: Id, p: Profile)
    ensures Holds(NEW_NODE.(access := Paired(peer, p)), peer, p)
  {
  }

  lemma {:induction false} YesReached(p: Profile, q: Profile) returns (w: World)
    ensures Reached(w)
    ensures Meeting(w, NEW_NODE.(pending := map[2 := p]), NEW_NODE.(access := Paired(1, q)),
                    multiset{Invite(1, 2), Response(2, 1, true)})
  {
    assert Reaches([], NEW_WORLD);
    MeetingInvites();
    w := NextReached(NEW_WORLD, SendInvite(1, 2));
    MeetingPends(w, p);
    w := NextReached(w, InsertPending(1, 2, p));
    MeetingAccepts(w, p, q);
    w := NextReached(w, AcceptInvite(2, 1, q));
    MeetingReplies(w, p, q);
    w := NextReached(w, SendReply(2, Reply(1, true)));
  }

  /** Invite, accept, reply and response, and both nodes hold active records of each other and allow each other. */
  lemma {:induction false} PairingSucceeds(p: Profile, q: Profile)
    ensures exists w :: Reached(w) && Holds(At(w, 1), 2, p) && Holds(At(w, 2), 1, q)
  {
    var w := YesReached(p, q);
    MeetingCommits(w, p, q);
    w := NextReached(w, Deliver(Response(2, 1, true), Inbound(false)));
  }

  // ------------------------------------------------------------------------ the object

  /** One node's control state, updated in place by the message loops and the commands. */
  class NodeService {
    const id: Id
    const access: AccessControl
    var pending: map<Id, Profile>
    var delivering: multiset<Id>
    var outbox: multiset<Reply>
    var clock: nat

    ghost function View(): Node
      reads this, access, access.store
    {
      Node(access.View(), pending, delivering, outbox, clock)
    }

    /** Starting the node reloads the allowlist from the store; nothing else survives a restart. */
    constructor (id: Id, store: PairedDeviceStore, now: nat)
      modifies store
      ensures View() == Node(PairedStore.Step(Access(old(store.devices), {}), Restart(false)),
                             map[], multiset{}, multiset{}, now)
      ensures fresh(access) && access.store == store
    {
      this.id := id;
      access := new AccessControl(store, false);
      pending, delivering, outbox, clock := map[], multiset{}, multiset{}, now;
    }

    method AddPending(peer: Id, profile: Profile)
      requires peer in delivering
      modifies this
      ensures View() == After(old(View()), InviteMove(id, old(View()), InsertPending(id, peer, profile)))
    {
      delivering := delivering - multiset{peer};
      pending := pending[peer := profile];
    }

    method AcceptNearbyInvite(peer: Id, profile: Profile)
      modifies this, access, access.store
      ensures View() == After(old(View()), InviteMove(id, old(View()), AcceptInvite(id, peer, profile)))
    {
      access.PairDevice(NewDevice(peer, profile, clock, None));
      outbox := outbox + multiset{Reply(peer, true)};
    }

    method RespondPairedInvite(peer: Id, accepted: bool) returns (known: bool)
      modifies this
      ensures View() == After(old(View()), InviteMove(id, old(View()), RespondPaired(id, peer, accepted)))
      ensures known <==> peer in access.allowed
    {
      known := peer in access.allowed;
      if known {
        outbox := outbox + multiset{Reply(peer, accepted)};
      }
    }

    method HandleInviteResponse(peer: Id, accepted: bool, peerIsPaired: bool)
      modifies this, access, access.store
      ensures View() == After(old(View()), OnResponse(id, old(View()), peer, accepted, peerIsPaired))
    {
      if peerIsPaired || peer !in pending {
        return;
      }
      var invited := pending[peer];
      pending := pending - {peer};
      if accepted {
        access.PairDevice(NewDevice(peer, invited, clock, None));
      }
    }

    /** Returns whether the connection is closed as not permitted for an unpaired peer. */
    method HandleRecognition(peer: Id, peerIsPaired: bool) returns (refused: bool)
      modifies access.store
      ensures forall committed ::
                View() == After(old(View()), OnRecognition(id, old(View()), peer, peerIsPaired, committed))
      ensures refused <==> !peerIsPaired && peer !in access.allowed
    {
      var paired := peerIsPaired;
      if !paired {
        paired := peer in access.allowed;
      }
      refused := !paired;
      if paired {
        access.store.TouchRow(peer, clock);
      }
    }

    /** The connect loop reads that its Recognition was refused. */
    method ReadRefusal(peer: Id) returns (stop: bool)
      modifies access, access.store
      ensures View() == After(old(View()), OnRefusal(old(View()), peer))
      ensures stop ==> !RecordIsActive(access.store.devices, peer)
    {
      var i := access.store.FindRow(peer);
      if i < |access.store.devices|
         && SaturatingSub(clock, access.store.devices[i].pairedAt) < RECENT_PAIRING_GRACE_MS {
        return false;
      }
      ghost var was := access.store.devices;
      stop := access.ApplyRemoteUnpair(peer);
      if stop {
        GetAfterUpdate(was, i, was[i].(status := UnpairedRemotely), peer);
      }
    }

    method HandleForgotten(peer: Id, channel: Channel)
      modifies access, access.store
      ensures View() == After(old(View()), OnForgotten(old(View()), peer, channel))
    {
      if channel.Outbound? {
        var _ := access.ApplyRemoteUnpair(peer);
      } else if channel.peerIsPaired || peer in access.allowed {
        access.HandleForget(peer);
      }
    }
  }
}
