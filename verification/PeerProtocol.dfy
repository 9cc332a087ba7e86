/** Agents talking to each other in a chat (workbot/main.py): ids seen, routing, and how far a cascade goes. */
module PeerProtocol {
  import opened TextSplit
  import opened Whitespace
  import opened JsonText
  import opened AgentEnvelope
  import opened PeerCommands

  // ------------------------------------------------------------------ Seen ids

  const WINDOW := 2048

  function Elements(s: seq<string>): set<string> {
    set x | x in s
  }

  // The ids remembered after accepting those of the log: its last WINDOW entries.
  function Recent(log: seq<string>): seq<string> {
    if |log| <= WINDOW then log else log[|log| - WINDOW..]
  }

  function Accepted(log: seq<string>, id: string): seq<string> {
    if id in Recent(log) then log else log + [id]
  }

  function AcceptAll(ids: seq<string>): seq<string> {
    if ids == [] then [] else Accepted(AcceptAll(ids[..|ids| - 1]), ids[|ids| - 1])
  }

  predicate Apart(log: seq<string>) {
    forall i, j :: 0 <= i < j < |log| && log[i] == log[j] ==> j - i > WINDOW
  }

  lemma AppendNew(order: seq<string>, id: string)
    ensures Elements(order + [id]) == Elements(order) + {id}
  {}

  /** Whatever ids arrive in whatever order, between two acceptances of one id WINDOW others are accepted; so a request
      triggers at most one turn while its id is in the window. */
  lemma {:induction false} AcceptedOncePerWindow(ids: seq<string>)
    ensures Apart(AcceptAll(ids))
    decreases |ids|
  {
    if ids != [] {
      AcceptedOncePerWindow(ids[..|ids| - 1]);
    }
  }

  /** An id is accepted exactly when it is not among the last 2048 accepted, and is among them from then on. */
  lemma AcceptedExactly(ids: seq<string>, id: string)
    ensures var before := AcceptAll(ids); var after := AcceptAll(ids + [id]);
      && (after == before || after == before + [id])
      && (after == before <==> exists k :: 0 <= k < |before| && |before| - 2048 <= k && before[k] == id)
      && exists k :: 0 <= k < |after| && |after| - 2048 <= k && after[k] == id
  {
    var before, after := AcceptAll(ids), AcceptAll(ids + [id]);
    assert (ids + [id])[..|ids|] == ids;
    if id in Recent(before) {
      var i :| 0 <= i < |Recent(before)| && Recent(before)[i] == id;
      assert before[|before| - |Recent(before)| + i] == id;
    } else {
      assert after[|before|] == id;
      forall k | 0 <= k < |before| && |before| - 2048 <= k ensures before[k] != id {
        assert before[k] == Recent(before)[k - (|before| - |Recent(before)|)];
      }
    }
  }

  // ------------------------------------------------------------------ Routing one message

  // What the receiving agent is configured to accept.
  datatype Config = Config(
    enabled: bool, groups: set<string>, agentId: string, acceptBroadcast: bool, maxHops: int,
    senders: map<string, set<string>>)

  datatype Incoming = Incoming(isGroup: bool, group: string, sender: string, envelope: Envelope,
    discovery: Option<Discovery>)

  datatype Discovery = Hello | HelloAck

  datatype Route = StoreOnly | Acknowledge | Dispatch

  predicate ForUs(c: Config, e: Envelope) {
    if e.toId == "*" then c.acceptBroadcast else e.toId == c.agentId
  }

  /** The only messages that start a turn. */
  predicate Trusted(c: Config, m: Incoming) {
    && c.enabled && m.isGroup && (c.groups != {} ==> m.group in c.groups)
    && m.envelope.messageType == "request" && m.envelope.hop < c.maxHops
    && m.envelope.fromId in c.senders && m.sender in c.senders[m.envelope.fromId]
    && ForUs(c, m.envelope)
  }

  predicate Concerns(c: Config, m: Incoming) {
    && c.enabled && m.isGroup && (c.groups != {} ==> m.group in c.groups)
    && (if m.envelope.messageType == "event" && m.discovery.Some?
        then m.envelope.toId in {"*", c.agentId}
        else
          && m.envelope.fromId in c.senders && m.sender in c.senders[m.envelope.fromId] && ForUs(c, m.envelope)
          && (m.envelope.messageType == "request" ==> m.envelope.hop < c.maxHops))
  }

  class Peer {
    const config: Config
    var seen: set<string>
    var order: seq<string>
    ghost var log: seq<string>

    constructor (config: Config)
      ensures this.config == config && Valid() && log == []
    {
      this.config := config;
      seen, order, log := {}, [], [];
    }

    ghost predicate Valid()
      reads this
    {
      Apart(log) && order == Recent(log) && seen == Elements(order) && |order| <= WINDOW
    }

    /** False exactly for an id in the window. */
    method Remember(id: string) returns (first: bool)
      requires Valid()
      modifies this`seen, this`order, this`log
      ensures Valid() && first == (id !in old(seen)) && log == Accepted(old(log), id) && id in seen
      ensures |order| <= 2048 && (!first ==> order == old(order))
      ensures first ==> order == (old(order) + [id])[if |old(order)| == 2048 then 1 else 0..]
    {
      if id in seen {
        return false;
      }
      AppendNew(order, id);
      log := log + [id];
      seen := seen + {id};
      order := order + [id];
      if |order| > WINDOW {
        var oldest := order[0];
        order := order[1..];
        seen := seen - {oldest};
      }
      return true;
    }

    /** `registers`: the discovery payload is accepted as a binding. A turn starts exactly for a trusted request whose
        id is not in the window, an acknowledgement is sent exactly for a hello that registers; both only once. */
    method RouteMessage(m: Incoming, registers: bool) returns (route: Route)
      requires Valid()
      modifies this`seen, this`order, this`log
      ensures Valid()
      ensures route.Dispatch? <==> Trusted(config, m) && m.envelope.messageId !in old(seen)
      ensures route.Acknowledge? <==>
        Concerns(config, m) && m.envelope.messageType == "event" && m.discovery == Some(Hello) && registers
        && m.envelope.messageId !in old(seen)
      ensures log == if Concerns(config, m) then Accepted(old(log), m.envelope.messageId) else old(log)
      ensures route.Dispatch? ==>
        && m.isGroup && m.envelope.messageType == "request" && m.envelope.hop < config.maxHops
        && (m.envelope.toId == config.agentId || (m.envelope.toId == "*" && config.acceptBroadcast))
        && m.envelope.fromId in config.senders && m.sender in config.senders[m.envelope.fromId]
      ensures !route.StoreOnly? ==> m.envelope.messageId in seen && m.envelope.messageId !in old(seen)
    {
      route := StoreOnly;
      var e := m.envelope;
      if !config.enabled || !m.isGroup || (config.groups != {} && m.group !in config.groups) {
        return;
      }
      if e.messageType == "event" && m.discovery.Some? {
        if e.toId !in {"*", config.agentId} {
          return;
        }
        var first := Remember(e.messageId);
        if first && registers && m.discovery.value.Hello? {
          route := Acknowledge;
        }
        return;
      }
      if e.fromId !in config.senders || m.sender !in config.senders[e.fromId] {
        return;
      }
      var target := e.toId == config.agentId;
      if e.toId == "*" {
        target := config.acceptBroadcast;
      }
      if !target || (e.hop >= config.maxHops && e.messageType == "request") {
        return;
      }
      var first := Remember(e.messageId);
      if first && e.messageType == "request" {
        route := Dispatch;
      }
    }
  }

  // ------------------------------------------------------------------ The cascade

  datatype Kind = HelloEvent | AckEvent | OtherEvent | Response | Request(body: string)

  // A message of the group that one agent has not handled yet.
  datatype Delivery = Delivery(agent: nat, kind: Kind)

  // How an agent takes a message: ignored (not for it, duplicate, untrusted), or handled with a number of reply parts;
  // `works` when a discovery or forward command succeeds.
  datatype Turn = Ignored | Handled(works: bool, replies: nat)

  function Responses(n: nat): (r: seq<Kind>)
    ensures |r| == n && forall i :: 0 <= i < n ==> r[i] == Response
  {
    seq(n, i => Response)
  }

  // The messages an agent emits for one it handles.
  function Emits(kind: Kind, turn: Turn): seq<Kind> {
    if turn.Ignored? then []
    else
      match kind
      case HelloEvent => [AckEvent]
      case AckEvent => []
      case OtherEvent => []
      case Response => []
      case Request(body) => Performs(CommandOf(body), turn)
  }

  function Performs(c: Command, turn: Turn): seq<Kind>
    requires turn.Handled?
  {
    match c
    case Discover => (if turn.works then [HelloEvent] else []) + Responses(turn.replies)
    case Forward(_, rest) => if turn.works then [Request(rest)] else Responses(turn.replies)
    case Other => Responses(turn.replies)
  }

  /** What a handled message leads to: a hello one acknowledgement, a request that asks to send a request exactly that
      one, any other request responses and for `/agent discover` a hello, and everything else nothing. */
  lemma EmitsExactly(kind: Kind, works: bool, replies: nat, spelled: Spelling)
    ensures var out := Emits(kind, Handled(works, replies));
      && (kind.Request? && works && Spells(kind.body, spelled) ==> out == [Request(spelled.body)])
      && (kind.Request? && Lower(Strip(kind.body)) != "/agent discover" && (forall p :: !Spells(kind.body, p)) ==>
            out == Responses(replies))
      && (kind.Request? && Lower(Strip(kind.body)) == "/agent discover" && works ==>
            out == [HelloEvent] + Responses(replies))
      && (kind.HelloEvent? ==> out == [AckEvent])
      && (kind.AckEvent? || kind.OtherEvent? || kind.Response? ==> out == [])
  {
    if kind.Request? {
      CommandExactly(kind.body, spelled.peer, spelled.body);
      match CommandOf(kind.body) {
        case Forward(peer, body) => CommandExactly(kind.body, peer, body);
        case _ =>
      }
    }
  }

  function Broadcast(agents: nat, kind: Kind): (r: seq<Delivery>)
    ensures |r| == agents
  {
    seq(agents, i requires i >= 0 => Delivery(i, kind))
  }

  function BroadcastAll(agents: nat, kinds: seq<Kind>): seq<Delivery> {
    if kinds == [] then [] else BroadcastAll(agents, kinds[..|kinds| - 1]) + Broadcast(agents, kinds[|kinds| - 1])
  }

  datatype Action = Handle(index: nat, turn: Turn)

  predicate Enabled(pending: seq<Delivery>, a: Action, parts: nat) {
    a.index < |pending| && (a.turn.Handled? ==> a.turn.replies <= parts)
  }

  // One agent handles one delivery; what it emits reaches every agent of the group.
  function Step(agents: nat, pending: seq<Delivery>, a: Action): seq<Delivery>
    requires a.index < |pending|
  {
    pending[..a.index] + pending[a.index + 1..] + BroadcastAll(agents, Emits(pending[a.index].kind, a.turn))
  }

  // ------------------------------------------------------------------ The potential

  // Bound on all that a delivery can lead to, in handled deliveries and emitted messages, for replies of at most
  // `parts` parts.
  function Cost(kind: Kind, agents: nat, parts: nat): nat {
    match kind
    case Request(body) => RequestCost(|body|, agents, parts)
    case HelloEvent => 2 + agents
    case _ => 1
  }

  function RequestCost(length: nat, agents: nat, parts: nat): nat {
    1 + Each(1, agents, parts) + Each(2 + agents, agents, 1)
      + if length == 0 then 0 else Each(RequestCost(length - 1, agents, parts), agents, 1)
  }

  // What `count` messages of that cost add: themselves, and a delivery to each agent.
  function Each(cost: nat, agents: nat, count: nat): nat {
    count * (1 + agents * cost)
  }

  function Potential(pending: seq<Delivery>, agents: nat, parts: nat): nat {
    if pending == [] then 0
    else Potential(pending[..|pending| - 1], agents, parts) + Cost(pending[|pending| - 1].kind, agents, parts)
  }

  function EmissionCost(kinds: seq<Kind>, agents: nat, parts: nat): nat {
    if kinds == [] then 0
    else EmissionCost(kinds[..|kinds| - 1], agents, parts) + 1 + agents * Cost(kinds[|kinds| - 1], agents, parts)
  }

  lemma {:induction false} PotentialConcat(a: seq<Delivery>, b: seq<Delivery>, agents: nat, parts: nat)
    ensures Potential(a + b, agents, parts) == Potential(a, agents, parts) + Potential(b, agents, parts)
    decreases |b|
  {
    if b == [] {
      assert a + b == a;
    } else {
      var n := |b| - 1;
      assert (a + b)[..|a + b| - 1] == a + b[..n];
      PotentialConcat(a, b[..n], agents, parts);
    }
  }

  lemma Distribute(n: nat, cost: nat)
    requires n > 0
    ensures n * cost == (n - 1) * cost + cost
  {}

  lemma {:induction false} PotentialBroadcast(n: nat, kind: Kind, agents: nat, parts: nat)
    ensures Potential(Broadcast(n, kind), agents, parts) == n * Cost(kind, agents, parts)
    decreases n
  {
    if n > 0 {
      assert Broadcast(n, kind)[..n - 1] == Broadcast(n - 1, kind);
      PotentialBroadcast(n - 1, kind, agents, parts);
      Distribute(n, Cost(kind, agents, parts));
    }
  }

  lemma {:induction false} PotentialEmitted(kinds: seq<Kind>, agents: nat, parts: nat)
    ensures Potential(BroadcastAll(agents, kinds), agents, parts) + |kinds| == EmissionCost(kinds, agents, parts)
    decreases |kinds|
  {
    if kinds != [] {
      var n := |kinds| - 1;
      PotentialEmitted(kinds[..n], agents, parts);
      PotentialBroadcast(agents, kinds[n], agents, parts);
      PotentialConcat(BroadcastAll(agents, kinds[..n]), Broadcast(agents, kinds[n]), agents, parts);
    }
  }

  lemma {:induction false} EmissionResponses(n: nat, agents: nat, parts: nat)
    ensures EmissionCost(Responses(n), agents, parts) == Each(1, agents, n)
    decreases n
  {
    if n > 0 {
      assert Responses(n)[..n - 1] == Responses(n - 1);
      EmissionResponses(n - 1, agents, parts);
      assert n * (1 + agents) == (n - 1) * (1 + agents) + (1 + agents);
    }
  }

  lemma {:induction false} EmissionConcat(a: seq<Kind>, b: seq<Kind>, agents: nat, parts: nat)
    ensures EmissionCost(a + b, agents, parts) == EmissionCost(a, agents, parts) + EmissionCost(b, agents, parts)
    decreases |b|
  {
    if b == [] {
      assert a + b == a;
    } else {
      var n := |b| - 1;
      assert (a + b)[..|a + b| - 1] == a + b[..n];
      EmissionConcat(a, b[..n], agents, parts);
    }
  }

  lemma EachGrows(a: nat, b: nat, agents: nat)
    requires a <= b
    ensures Each(a, agents, 1) <= Each(b, agents, 1)
  {}

  lemma {:induction false} RequestCostGrows(m: nat, n: nat, agents: nat, parts: nat)
    requires m <= n
    ensures RequestCost(m, agents, parts) <= RequestCost(n, agents, parts)
    decreases n
  {
    if m > 0 {
      RequestCostGrows(m - 1, n - 1, agents, parts);
      EachGrows(RequestCost(m - 1, agents, parts), RequestCost(n - 1, agents, parts), agents);
    }
  }

  lemma RepliesBounded(n: nat, agents: nat, parts: nat)
    requires n <= parts
    ensures Each(1, agents, n) <= Each(1, agents, parts)
  {}

  /** What a handled message emits costs less than the message. */
  lemma EmitsCostLess(kind: Kind, turn: Turn, agents: nat, parts: nat)
    requires turn.Handled? ==> turn.replies <= parts
    ensures EmissionCost(Emits(kind, turn), agents, parts) + 1 <= Cost(kind, agents, parts)
  {
    if turn.Handled? && kind.Request? {
      RequestEmits(CommandOf(kind.body), |kind.body|, turn, agents, parts);
    }
  }

  lemma RequestEmits(c: Command, length: nat, turn: Turn, agents: nat, parts: nat)
    requires turn.Handled? && turn.replies <= parts && (c.Forward? ==> |c.body| < length)
    ensures EmissionCost(Performs(c, turn), agents, parts) + 1 <= RequestCost(length, agents, parts)
  {
    RepliesBounded(turn.replies, agents, parts);
    EmissionResponses(turn.replies, agents, parts);
    if c.Forward? && turn.works {
      RequestCostGrows(|c.body|, length - 1, agents, parts);
      EachGrows(RequestCost(|c.body|, agents, parts), RequestCost(length - 1, agents, parts), agents);
    } else if c.Discover? {
      DiscoverEmits(turn, agents, parts);
    }
  }

  lemma DiscoverEmits(turn: Turn, agents: nat, parts: nat)
    requires turn.Handled?
    ensures EmissionCost((if turn.works then [HelloEvent] else []) + Responses(turn.replies), agents, parts)
      <= Each(2 + agents, agents, 1) + Each(1, agents, turn.replies)
  {
    EmissionResponses(turn.replies, agents, parts);
    EmissionConcat([HelloEvent], Responses(turn.replies), agents, parts);
    EmissionConcat([], Responses(turn.replies), agents, parts);
  }

  lemma StepLowers(agents: nat, pending: seq<Delivery>, a: Action, parts: nat)
    requires Enabled(pending, a, parts)
    ensures Potential(Step(agents, pending, a), agents, parts) + 1 + |Emits(pending[a.index].kind, a.turn)|
      <= Potential(pending, agents, parts)
  {
    var front, d, back := pending[..a.index], pending[a.index], pending[a.index + 1..];
    var kinds := Emits(d.kind, a.turn);
    PotentialConcat(front + back, BroadcastAll(agents, kinds), agents, parts);
    PotentialConcat(front, back, agents, parts);
    PotentialConcat(front + [d], back, agents, parts);
    assert pending == (front + [d]) + back && (front + [d])[..|front + [d]| - 1] == front;
    PotentialEmitted(kinds, agents, parts);
    EmitsCostLess(d.kind, a.turn, agents, parts);
  }

  // ------------------------------------------------------------------ Runs

  predicate IsRun(agents: nat, pending: seq<Delivery>, actions: seq<Action>, parts: nat)
    decreases |actions|
  {
    actions == [] ||
    (Enabled(pending, actions[0], parts) && IsRun(agents, Step(agents, pending, actions[0]), actions[1..], parts))
  }

  function Emitted(agents: nat, pending: seq<Delivery>, actions: seq<Action>, parts: nat): nat
    requires IsRun(agents, pending, actions, parts)
    decreases |actions|
  {
    if actions == [] then 0
    else
      var now := |Emits(pending[actions[0].index].kind, actions[0].turn)|;
      now + Emitted(agents, Step(agents, pending, actions[0]), actions[1..], parts)
  }

  /** Without a further operator action every run quiesces: from any undelivered messages, however often requests
      forward requests, the number of messages handled and emitted has a bound fixed beforehand. (The hop limit alone
      would not give one: a forwarded request starts again at hop 0.) */
  lemma {:induction false} Quiesces(agents: nat, pending: seq<Delivery>, actions: seq<Action>, parts: nat)
    requires IsRun(agents, pending, actions, parts)
    ensures |actions| + Emitted(agents, pending, actions, parts) <= Potential(pending, agents, parts)
    decreases |actions|
  {
    if actions != [] {
      StepLowers(agents, pending, actions[0], parts);
      Quiesces(agents, Step(agents, pending, actions[0]), actions[1..], parts);
    }
  }
}
