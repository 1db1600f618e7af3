/**
 * The MoStar agent graph: twelve agents in four layers, fifteen fixed
 * connections, thirty data nodes, and the random links that join them.
 * `Math.random()` is an input: `rand(k)` is the value of the k-th call.
 */
module NetworkGraph {
  import opened Wrappers
  import opened JsText

  datatype Layer = Soul | Mind | Body | Meta

  function LayerName(l: Layer): string {
    match l
    case Soul => "soul"
    case Mind => "mind"
    case Body => "body"
    case Meta => "meta"
  }

  datatype Agent = Agent(id: string, name: string, layer: Layer, color: string, size: nat)

  /** `MOSTAR_AGENTS`, in declaration order. */
  const MostarAgents: seq<Agent> := [
    Agent("overlord", "Overlord", Soul, "#FFD700", 8),
    Agent("woo", "Woo", Soul, "#FF6B35", 6),
    Agent("flameborn-writer", "Flameborn Writer", Soul, "#FF8C42", 5),
    Agent("assessor", "Assessor", Mind, "#4CC9F0", 6),
    Agent("oracle", "Oracle", Mind, "#4361EE", 6),
    Agent("judge", "Judge", Mind, "#3A0CA3", 6),
    Agent("tsatse-fly", "TsaTse Fly", Mind, "#7209B7", 5),
    Agent("deepcal-core", "DeepCAL Core", Mind, "#4895EF", 7),
    Agent("executor", "Executor", Body, "#06D6A0", 6),
    Agent("code-conduit", "Code Conduit", Body, "#0DB39E", 5),
    Agent("radx-flb", "RAD-X-FLB", Meta, "#F72585", 7),
    Agent("phoenix", "Phoenix", Meta, "#B5179E", 5)
  ]

  datatype Connection = Connection(source: string, target: string, strength: nat)

  /** `CORE_CONNECTIONS`, in declaration order. */
  const CoreConnections: seq<Connection> := [
    Connection("overlord", "woo", 2),
    Connection("overlord", "flameborn-writer", 1),
    Connection("assessor", "judge", 3),
    Connection("oracle", "judge", 2),
    Connection("tsatse-fly", "assessor", 2),
    Connection("deepcal-core", "judge", 2),
    Connection("deepcal-core", "assessor", 1),
    Connection("judge", "executor", 3),
    Connection("code-conduit", "executor", 2),
    Connection("overlord", "assessor", 1),
    Connection("overlord", "executor", 2),
    Connection("woo", "flameborn-writer", 2),
    Connection("radx-flb", "executor", 2),
    Connection("radx-flb", "assessor", 1),
    Connection("phoenix", "overlord", 1)
  ]

  datatype Node = Node(id: string, name: string, val: real, color: string, group: string, layer: Layer)

  datatype Link = Link(source: string, target: string, value: real, color: string)

  /** Successive results of `Math.random()`. */
  type Draws = nat -> real

  ghost predicate UnitDraws(rand: Draws) {
    forall k :: 0.0 <= rand(k) < 1.0
  }

  /** `Math.floor(r * n)`: a uniform index into a list of `n` elements. */
  function Pick(r: real, n: nat): (i: nat)
    requires 0.0 <= r < 1.0 && n > 0
    ensures i < n
  {
    assert r * n as real < n as real;
    (r * n as real).Floor
  }

  const Layers: seq<Layer> := [Soul, Mind, Body, Meta]

  /** The colour of a data node's layer, before its alpha suffix. */
  function DataColor(l: Layer): string {
    match l
    case Soul => "#FF6B35"
    case Mind => "#4361EE"
    case Body => "#06D6A0"
    case Meta => "#F72585"
  }

  /** `startsWith('data-')`: the mark of a data node's id. */
  predicate IsDataId(id: string) {
    StartsWith(id, "data-")
  }

  function AgentNode(a: Agent): Node {
    Node(a.id, a.name, a.size as real, a.color, LayerName(a.layer), a.layer)
  }

  /** The i-th data node: draw `2 * i` picks its layer, draw `2 * i + 1` its size. */
  function DataNode(i: nat, rand: Draws): Node
    requires UnitDraws(rand)
  {
    var layer := Layers[Pick(rand(2 * i), 4)];
    Node("data-" + NatToString(i), "Data Stream " + NatToString(i + 1), rand(2 * i + 1) * 2.0 + 1.0,
      DataColor(layer) + "80", "data", layer)
  }

  /**
   * `generateMoStarNodes`: the agents, sized by `size` and grouped by layer,
   * then thirty data nodes `data-0` .. `data-29` in group `data`.
   */
  function GenerateNodes(rand: Draws): (nodes: seq<Node>)
    requires UnitDraws(rand)
    ensures |nodes| == |MostarAgents| + 30
    ensures forall i :: 0 <= i < |MostarAgents| ==>
      var a := MostarAgents[i];
      && nodes[i].id == a.id && nodes[i].name == a.name && nodes[i].color == a.color
      && nodes[i].val == a.size as real && nodes[i].layer == a.layer && nodes[i].group == LayerName(a.layer)
    ensures forall i :: 0 <= i < 30 ==>
      var n := nodes[|MostarAgents| + i];
      && n.id == "data-" + NatToString(i) && n.name == "Data Stream " + NatToString(i + 1) && n.group == "data"
      && n.layer == Layers[Pick(rand(2 * i), 4)] && n.val == rand(2 * i + 1) * 2.0 + 1.0
      && 1.0 <= n.val < 3.0 && n.color == DataColor(n.layer) + "80"
  {
    AgentPartNodes() + DataPartNodes(rand)
  }

  /** `MOSTAR_AGENTS.map(...)`: one node per agent, in declaration order. */
  function AgentPartNodes(): (nodes: seq<Node>)
    ensures |nodes| == |MostarAgents|
    ensures forall i :: 0 <= i < |nodes| ==> nodes[i] == AgentNode(MostarAgents[i])
  {
    seq(|MostarAgents|, i requires 0 <= i < |MostarAgents| => AgentNode(MostarAgents[i]))
  }

  /** `Array.from({ length: 30 }, ...)`: data node i draws its layer and then its size. */
  function DataPartNodes(rand: Draws): (nodes: seq<Node>)
    requires UnitDraws(rand)
    ensures |nodes| == 30
    ensures forall i :: 0 <= i < |nodes| ==> nodes[i] == DataNode(i, rand)
  {
    seq(30, i requires 0 <= i < 30 => DataNode(i, rand))
  }

  /** `nodes.filter(n => !n.id.startsWith('data-'))`. */
  function AgentNodes(nodes: seq<Node>): (r: seq<Node>)
    ensures |r| <= |nodes|
    ensures forall n :: n in r <==> n in nodes && !IsDataId(n.id)
  {
    if nodes == [] then []
    else if IsDataId(nodes[0].id) then AgentNodes(nodes[1..])
    else [nodes[0]] + AgentNodes(nodes[1..])
  }

  /** How many nodes are data nodes. */
  function DataCount(nodes: seq<Node>): nat {
    if nodes == [] then 0
    else DataCount(nodes[..|nodes| - 1]) + (if IsDataId(nodes[|nodes| - 1].id) then 1 else 0)
  }

  /** Some node in `nodes` has that id. */
  predicate HasId(nodes: seq<Node>, id: string) {
    exists i :: 0 <= i < |nodes| && nodes[i].id == id
  }

  predicate DistinctIds(nodes: seq<Node>) {
    forall i, j :: 0 <= i < j < |nodes| ==> nodes[i].id != nodes[j].id
  }

  /** `nodes.find(n => n.id === id)`: the first node with that id. */
  function FindNode(nodes: seq<Node>, id: string): (r: Option<Node>)
    ensures r.Some? <==> exists i :: 0 <= i < |nodes| && nodes[i].id == id
    ensures r.Some? ==> r.value.id == id && r.value in nodes
    ensures r.Some? ==> exists i :: 0 <= i < |nodes| && nodes[i] == r.value && forall j :: 0 <= j < i ==> nodes[j].id != id
  {
    if nodes == [] then None
    else if nodes[0].id == id then Some(nodes[0])
    else
      var r := FindNode(nodes[1..], id);
      assert forall i :: 1 <= i < |nodes| ==> nodes[i] == nodes[1..][i - 1];
      assert r.Some? ==> exists i :: 1 <= i < |nodes| && nodes[i] == r.value && forall j :: 0 <= j < i ==> nodes[j].id != id by {
        if r.Some? {
          var i :| 0 <= i < |nodes[1..]| && nodes[1..][i] == r.value && forall j :: 0 <= j < i ==> nodes[1..][j].id != id;
          assert nodes[i + 1] == r.value;
          forall j | 0 <= j < i + 1
            ensures nodes[j].id != id
          {
            if j > 0 {
              assert nodes[j] == nodes[1..][j - 1];
            }
          }
        }
      }
      r
  }

  const MissingColor := "#FFFFFF20"
  const CrossLayerColor := "#FFFFFF40"

  /**
   * `getConnectionColor`: the source's colour at alpha `60` when both ends
   * exist in the same layer, `#FFFFFF40` across layers, `#FFFFFF20` when an
   * end is missing. The three cases are told apart by the result alone.
   */
  function ConnectionColor(source: string, target: string, nodes: seq<Node>): (c: string)
    ensures c == MissingColor <==> FindNode(nodes, source).None? || FindNode(nodes, target).None?
    ensures c == CrossLayerColor <==>
      FindNode(nodes, source).Some? && FindNode(nodes, target).Some?
      && FindNode(nodes, source).value.layer != FindNode(nodes, target).value.layer
    ensures (FindNode(nodes, source).Some? && FindNode(nodes, target).Some?
             && FindNode(nodes, source).value.layer == FindNode(nodes, target).value.layer) ==>
      c == FindNode(nodes, source).value.color + "60"
  {
    match (FindNode(nodes, source), FindNode(nodes, target))
    case (Some(s), Some(t)) =>
      if s.layer == t.layer then
        var c := s.color + "60";
        assert c[|c| - 2..] == "60";
        c
      else CrossLayerColor
    case _ => MissingColor
  }

  /** The link a core connection becomes: its strength as value. */
  function CoreLink(c: Connection, nodes: seq<Node>): Link {
    Link(c.source, c.target, c.strength as real, ConnectionColor(c.source, c.target, nodes))
  }

  /** `l` is a link drawn for data node `node`: from it, at 0.5, in its colour at alpha `40`. */
  predicate DataLinkOf(l: Link, node: Node) {
    l.source == node.id && l.value == 0.5 && l.color == node.color + "40"
  }

  /** A link from some data node of `nodes` to an agent. */
  predicate IsDataLink(l: Link, nodes: seq<Node>) {
    && HasId(AgentNodes(nodes), l.target)
    && exists n :: 0 <= n < |nodes| && IsDataId(nodes[n].id) && DataLinkOf(l, nodes[n])
  }

  /** An extra link between two agents, at value 0.3, coloured by `getConnectionColor`. */
  predicate IsExtraLink(l: Link, nodes: seq<Node>) {
    && l.value == 0.3
    && HasId(AgentNodes(nodes), l.source) && HasId(AgentNodes(nodes), l.target)
    && l.color == ConnectionColor(l.source, l.target, nodes)
  }

  /** The link joins `a` and `b`, in either direction. */
  predicate Joins(l: Link, a: string, b: string) {
    (l.source == a && l.target == b) || (l.source == b && l.target == a)
  }

  /** `links.find(...)`: the first link joining `a` and `b` in either direction. */
  method FindLink(links: seq<Link>, a: string, b: string) returns (found: Option<Link>)
    ensures found.Some? <==> exists i :: 0 <= i < |links| && Joins(links[i], a, b)
    ensures found.Some? ==> found.value in links && Joins(found.value, a, b)
  {
    var i := 0;
    while i < |links|
      invariant 0 <= i <= |links|
      invariant forall j :: 0 <= j < i ==> !Joins(links[j], a, b)
    {
      if Joins(links[i], a, b) {
        return Some(links[i]);
      }
      i := i + 1;
    }
    return None;
  }

  /** `agentNodes.filter((_, i) => i !== index)`. */
  function Without(agents: seq<Node>, index: nat): (r: seq<Node>)
    requires index < |agents|
    ensures |r| == |agents| - 1
    ensures forall p :: 0 <= p < |r| ==> r[p] == agents[if p < index then p else p + 1]
  {
    agents[..index] + agents[index + 1..]
  }

  /** No link of `links` joins `a` and `b`, in either direction. */
  predicate NoLinkJoins(links: seq<Link>, a: string, b: string) {
    forall i :: 0 <= i < |links| ==> !Joins(links[i], a, b)
  }

  /** The links of the fifteen core connections, in order. */
  method AddCoreLinks(nodes: seq<Node>) returns (links: seq<Link>)
    ensures |links| == |CoreConnections|
    ensures forall j :: 0 <= j < |links| ==> links[j] == CoreLink(CoreConnections[j], nodes)
  {
    links := [];
    var i := 0;
    while i < |CoreConnections|
      invariant 0 <= i <= |CoreConnections| && |links| == i
      invariant forall j :: 0 <= j < i ==> links[j] == CoreLink(CoreConnections[j], nodes)
    {
      var conn := CoreConnections[i];
      links := links + [Link(conn.source, conn.target, conn.strength as real, ConnectionColor(conn.source, conn.target, nodes))];
      i := i + 1;
    }
  }

  /** The link from data node `node` to the agent that draw `r` picks. */
  function DrawnDataLink(node: Node, agents: seq<Node>, r: real): Link
    requires 0.0 <= r < 1.0 && |agents| >= 1
  {
    Link(node.id, agents[Pick(r, |agents|)].id, 0.5, node.color + "40")
  }

  /**
   * The links drawn for one data node from draw `k0` on, and the next unused
   * draw: draw `k0` gives their number, one to three, and each following
   * draw the agent one of them goes to.
   */
  function NodeLinks(node: Node, agents: seq<Node>, rand: Draws, k0: nat): (r: (seq<Link>, nat))
    requires UnitDraws(rand) && |agents| >= 1
    ensures 1 <= |r.0| <= 3 && r.1 == k0 + 1 + |r.0|
    ensures forall l :: l in r.0 ==> DataLinkOf(l, node) && HasId(agents, l.target)
  {
    var count := Pick(rand(k0), 3) + 1;
    var links := seq(count, c requires 0 <= c < count => DrawnDataLink(node, agents, rand(k0 + 1 + c)));
    assert forall c :: 0 <= c < count ==> DataLinkOf(links[c], node) && HasId(agents, links[c].target) by {
      forall c | 0 <= c < count
        ensures DataLinkOf(links[c], node) && HasId(agents, links[c].target)
      {
        var a := Pick(rand(k0 + 1 + c), |agents|);
        assert links[c] == DrawnDataLink(node, agents, rand(k0 + 1 + c));
        assert links[c].target == agents[a].id;
      }
    }
    (links, k0 + 1 + count)
  }

  /** One data node's links, drawn one after the other. */
  method LinkDataNode(node: Node, agents: seq<Node>, rand: Draws, k0: nat) returns (added: seq<Link>, k: nat)
    requires UnitDraws(rand)
    requires |agents| >= 1
    ensures added == NodeLinks(node, agents, rand, k0).0 && k == NodeLinks(node, agents, rand, k0).1
    ensures 1 <= |added| <= 3
    ensures forall l :: l in added ==> DataLinkOf(l, node) && HasId(agents, l.target)
  {
    var count := Pick(rand(k0), 3) + 1;
    k := k0 + 1;
    added := [];
    var c := 0;
    while c < count
      invariant 0 <= c <= count && |added| == c && k == k0 + 1 + c
      invariant forall j :: 0 <= j < c ==> added[j] == DrawnDataLink(node, agents, rand(k0 + 1 + j))
    {
      var a := Pick(rand(k), |agents|);
      added := added + [Link(node.id, agents[a].id, 0.5, node.color + "40")];
      k := k + 1;
      c := c + 1;
    }
    assert added == NodeLinks(node, agents, rand, k0).0;
  }

  /** What the walk over the nodes draws for one node: its links when it is a data node, nothing otherwise. */
  function LinksOfNode(node: Node, agents: seq<Node>, rand: Draws, k: nat): (r: (seq<Link>, nat))
    requires UnitDraws(rand) && |agents| >= 1
  {
    if IsDataId(node.id) then NodeLinks(node, agents, rand, k) else ([], k)
  }

  /** The data links of the first `n` nodes, in node order, drawn from `k0` on, and the next unused draw. */
  function DataLinks(nodes: seq<Node>, n: nat, agents: seq<Node>, rand: Draws, k0: nat): (r: (seq<Link>, nat))
    requires UnitDraws(rand) && |agents| >= 1 && n <= |nodes|
    decreases n
  {
    if n == 0 then ([], k0)
    else
      var before := DataLinks(nodes, n - 1, agents, rand, k0);
      var part := LinksOfNode(nodes[n - 1], agents, rand, before.1);
      (before.0 + part.0, part.1)
  }

  lemma DataCountStep(nodes: seq<Node>, n: nat)
    requires n < |nodes|
    ensures DataCount(nodes[..n + 1]) == DataCount(nodes[..n]) + if IsDataId(nodes[n].id) then 1 else 0
  {
    assert nodes[..n + 1][..n] == nodes[..n];
  }

  /** The links of the first `m` nodes lead those of the first `n`. */
  lemma {:induction false} DataLinksPrefix(nodes: seq<Node>, m: nat, n: nat, agents: seq<Node>, rand: Draws, k0: nat)
    requires UnitDraws(rand) && |agents| >= 1 && m <= n <= |nodes|
    ensures |DataLinks(nodes, m, agents, rand, k0).0| <= |DataLinks(nodes, n, agents, rand, k0).0|
    ensures DataLinks(nodes, n, agents, rand, k0).0[..|DataLinks(nodes, m, agents, rand, k0).0|]
      == DataLinks(nodes, m, agents, rand, k0).0
    decreases n
  {
    if m < n {
      DataLinksPrefix(nodes, m, n - 1, agents, rand, k0);
      var small := DataLinks(nodes, m, agents, rand, k0).0;
      var before := DataLinks(nodes, n - 1, agents, rand, k0);
      var part := LinksOfNode(nodes[n - 1], agents, rand, before.1).0;
      assert (before.0 + part)[..|small|] == before.0[..|small|];
    }
  }

  /**
   * Between one and three data links per data node, none for any other
   * node: in total, from one to three times the number of data nodes.
   */
  lemma {:induction false} DataLinksTotal(nodes: seq<Node>, n: nat, agents: seq<Node>, rand: Draws, k0: nat)
    requires UnitDraws(rand) && |agents| >= 1 && n <= |nodes|
    ensures DataCount(nodes[..n]) <= |DataLinks(nodes, n, agents, rand, k0).0| <= 3 * DataCount(nodes[..n])
    decreases n
  {
    if n > 0 {
      DataLinksTotal(nodes, n - 1, agents, rand, k0);
      DataCountStep(nodes, n - 1);
    }
  }

  /** Every data link of the first `n` nodes leaves one of those data nodes for an agent. */
  lemma {:induction false} DataLinksFrom(nodes: seq<Node>, n: nat, agents: seq<Node>, rand: Draws, k0: nat)
    requires UnitDraws(rand) && |agents| >= 1 && n <= |nodes|
    ensures forall l :: l in DataLinks(nodes, n, agents, rand, k0).0 ==>
      HasId(agents, l.target) && exists m :: 0 <= m < n && IsDataId(nodes[m].id) && DataLinkOf(l, nodes[m])
    decreases n
  {
    if n > 0 {
      DataLinksFrom(nodes, n - 1, agents, rand, k0);
      var before := DataLinks(nodes, n - 1, agents, rand, k0);
      var part := LinksOfNode(nodes[n - 1], agents, rand, before.1).0;
      forall l | l in before.0 + part
        ensures HasId(agents, l.target) && exists m :: 0 <= m < n && IsDataId(nodes[m].id) && DataLinkOf(l, nodes[m])
      {
        if l !in before.0 {
          assert l in part && DataLinkOf(l, nodes[n - 1]);
        }
      }
    }
  }

  /**
   * Node `n`'s run in `links`: it starts where the links the nodes before
   * it draw end, ends where those of the nodes up to it end, and holds one
   * to three links from it when it is a data node, none otherwise.
   */
  ghost predicate DataRun(links: seq<Link>, nodes: seq<Node>, n: nat, agents: seq<Node>, rand: Draws, k0: nat)
    requires UnitDraws(rand) && |agents| >= 1 && n < |nodes|
  {
    var lo := |DataLinks(nodes, n, agents, rand, k0).0|;
    var hi := |DataLinks(nodes, n + 1, agents, rand, k0).0|;
    && lo <= hi <= |links|
    && (IsDataId(nodes[n].id) ==> 1 <= hi - lo <= 3)
    && (!IsDataId(nodes[n].id) ==> lo == hi)
    && forall j :: lo <= j < hi ==> DataLinkOf(links[j], nodes[n])
  }

  /** The data links fall into one run per node, in node order. */
  lemma DataLinksRun(nodes: seq<Node>, n: nat, agents: seq<Node>, rand: Draws, k0: nat)
    requires UnitDraws(rand) && |agents| >= 1 && n < |nodes|
    ensures DataRun(DataLinks(nodes, |nodes|, agents, rand, k0).0, nodes, n, agents, rand, k0)
  {
    DataLinksPrefix(nodes, n + 1, |nodes|, agents, rand, k0);
    var all := DataLinks(nodes, |nodes|, agents, rand, k0).0;
    var before := DataLinks(nodes, n, agents, rand, k0);
    var part := LinksOfNode(nodes[n], agents, rand, before.1).0;
    var mid := DataLinks(nodes, n + 1, agents, rand, k0).0;
    assert mid == before.0 + part;
    forall j | |before.0| <= j < |mid|
      ensures DataLinkOf(all[j], nodes[n])
    {
      assert all[j] == mid[j] == part[j - |before.0|];
      assert part[j - |before.0|] in part;
    }
  }

  /**
   * The data links of all nodes: one to three per data node, each in that
   * node's run; every one leaves a data node for an agent.
   */
  lemma DataLinksFacts(nodes: seq<Node>, rand: Draws, k0: nat)
    requires UnitDraws(rand) && |AgentNodes(nodes)| >= 1
    ensures var added := DataLinks(nodes, |nodes|, AgentNodes(nodes), rand, k0).0;
      && DataCount(nodes) <= |added| <= 3 * DataCount(nodes)
      && (forall l :: l in added ==> IsDataLink(l, nodes))
      && (forall n :: 0 <= n < |nodes| ==> DataRun(added, nodes, n, AgentNodes(nodes), rand, k0))
      && (forall n :: 0 <= n < |nodes| && IsDataId(nodes[n].id) ==> exists l :: l in added && DataLinkOf(l, nodes[n]))
  {
    var agents := AgentNodes(nodes);
    var added := DataLinks(nodes, |nodes|, agents, rand, k0).0;
    DataLinksTotal(nodes, |nodes|, agents, rand, k0);
    assert nodes[..|nodes|] == nodes;
    DataLinksFrom(nodes, |nodes|, agents, rand, k0);
    forall n | 0 <= n < |nodes|
      ensures DataRun(added, nodes, n, agents, rand, k0)
      ensures IsDataId(nodes[n].id) ==> exists l :: l in added && DataLinkOf(l, nodes[n])
    {
      DataLinksRun(nodes, n, agents, rand, k0);
      var lo := |DataLinks(nodes, n, agents, rand, k0).0|;
      if IsDataId(nodes[n].id) {
        assert added[lo] in added;
      }
    }
  }

  /** The links of every data node, in node order. */
  method AddDataLinks(nodes: seq<Node>, rand: Draws, k0: nat) returns (added: seq<Link>, k: nat)
    requires UnitDraws(rand)
    requires |AgentNodes(nodes)| >= 1
    ensures added == DataLinks(nodes, |nodes|, AgentNodes(nodes), rand, k0).0
    ensures k == DataLinks(nodes, |nodes|, AgentNodes(nodes), rand, k0).1
    ensures DataCount(nodes) <= |added| <= 3 * DataCount(nodes)
    ensures forall l :: l in added ==> IsDataLink(l, nodes)
    ensures forall n :: 0 <= n < |nodes| ==> DataRun(added, nodes, n, AgentNodes(nodes), rand, k0)
    ensures forall n :: 0 <= n < |nodes| && IsDataId(nodes[n].id) ==>
      exists l :: l in added && DataLinkOf(l, nodes[n])
  {
    var agents := AgentNodes(nodes);
    added, k := [], k0;
    var n := 0;
    while n < |nodes|
      invariant 0 <= n <= |nodes|
      invariant added == DataLinks(nodes, n, agents, rand, k0).0 && k == DataLinks(nodes, n, agents, rand, k0).1
    {
      if IsDataId(nodes[n].id) {
        var part;
        part, k := LinkDataNode(nodes[n], agents, rand, k);
        added := added + part;
      }
      n := n + 1;
    }
    DataLinksFacts(nodes, rand, k0);
  }

  /** `getConnectionColor` over `nodes`, as a function of the two ends' ids. */
  function Colors(nodes: seq<Node>): (string, string) -> string {
    (source: string, target: string) => ConnectionColor(source, target, nodes)
  }

  /** The extra link from agent `a` to the `q`-th of the other agents (those but `a`), at 0.3, coloured by `color`. */
  function DrawnExtraLink(agents: seq<Node>, a: nat, q: nat, color: (string, string) -> string): Link
    requires a < |agents| && q < |agents| - 1
  {
    var other := agents[if q < a then q else q + 1];
    Link(agents[a].id, other.id, 0.3, color(agents[a].id, other.id))
  }

  /** A link between two of `agents`, at 0.3, in the colour `color` gives its ends. */
  predicate AgentLink(l: Link, agents: seq<Node>, color: (string, string) -> string) {
    && l.value == 0.3
    && HasId(agents, l.source) && HasId(agents, l.target)
    && l.color == color(l.source, l.target)
  }

  /** The link agent `a` draws leaves it for another agent, and is no self-loop when ids are distinct. */
  lemma NewExtraLink(agents: seq<Node>, a: nat, q: nat, color: (string, string) -> string)
    requires a < |agents| && q < |agents| - 1
    ensures
      var l := DrawnExtraLink(agents, a, q, color);
      AgentLink(l, agents, color) && l.source == agents[a].id
      && (DistinctIds(agents) ==> l.source != l.target)
  {
    var p := if q < a then q else q + 1;
    assert HasId(agents, agents[a].id) && HasId(agents, agents[p].id);
  }

  /** The other agent that draw `k` picks. */
  function Partner(agents: seq<Node>, rand: Draws, k: nat): (q: nat)
    requires UnitDraws(rand) && |agents| >= 2
    ensures q < |agents| - 1
  {
    Pick(rand(k), |agents| - 1)
  }

  /**
   * Agent `a`'s turn with `links` already made and draw `k` next: it rolls
   * once; above 0.7 it draws a partner, and keeps the link it drew when no
   * link of `links` joins the two. The links it adds and the next unused draw.
   */
  function ExtraStep(agents: seq<Node>, a: nat, rand: Draws, links: seq<Link>, k: nat,
                     color: (string, string) -> string): (r: (seq<Link>, nat))
    requires UnitDraws(rand) && 2 <= |agents| && a < |agents|
    ensures |r.0| <= 1
    ensures forall l :: l in r.0 ==> l.source == agents[a].id
  {
    if rand(k) > 0.7 then
      var l := DrawnExtraLink(agents, a, Partner(agents, rand, k + 1), color);
      (if NoLinkJoins(links, l.source, l.target) then [l] else [], k + 2)
    else ([], k + 1)
  }

  /**
   * What agent `a`'s turn adds: the link it draws exactly when its roll
   * exceeds 0.7 and no link of `links` joins the two, and otherwise nothing;
   * an added link joins two agents in its pair's colour and, with distinct
   * agent ids, is no self-loop. The turn uses one draw, or two when it links.
   */
  lemma ExtraStepAdds(agents: seq<Node>, a: nat, rand: Draws, links: seq<Link>, k: nat,
                      color: (string, string) -> string)
    requires UnitDraws(rand) && 2 <= |agents| && a < |agents|
    ensures
      var r := ExtraStep(agents, a, rand, links, k, color);
      var l := DrawnExtraLink(agents, a, Partner(agents, rand, k + 1), color);
      && (r.0 == [l] <==> rand(k) > 0.7 && NoLinkJoins(links, l.source, l.target))
      && (r.0 != [l] ==> r.0 == [])
      && r.1 == (if rand(k) > 0.7 then k + 2 else k + 1)
      && forall l' :: l' in r.0 ==>
        && AgentLink(l', agents, color)
        && NoLinkJoins(links, l'.source, l'.target)
        && (DistinctIds(agents) ==> l'.source != l'.target)
  {
    NewExtraLink(agents, a, Partner(agents, rand, k + 1), color);
  }

  /**
   * The extra links of the first `a` agents, drawn from `k0` on, after the
   * links of `existing`, and the next unused draw.
   */
  function ExtraLinks(agents: seq<Node>, a: nat, rand: Draws, existing: seq<Link>, k0: nat,
                      color: (string, string) -> string): (r: (seq<Link>, nat))
    requires UnitDraws(rand) && 2 <= |agents| && a <= |agents|
    decreases a
  {
    if a == 0 then ([], k0)
    else
      var before := ExtraLinks(agents, a - 1, rand, existing, k0, color);
      var step := ExtraStep(agents, a - 1, rand, existing + before.0, before.1, color);
      (before.0 + step.0, step.1)
  }

  /** One more agent: the links so far, then what its turn adds. */
  lemma ExtraLinksNext(agents: seq<Node>, a: nat, rand: Draws, existing: seq<Link>, k0: nat,
                       color: (string, string) -> string)
    requires UnitDraws(rand) && 2 <= |agents| && a < |agents|
    ensures
      var before := ExtraLinks(agents, a, rand, existing, k0, color);
      var step := ExtraStep(agents, a, rand, existing + before.0, before.1, color);
      && ExtraLinks(agents, a + 1, rand, existing, k0, color).0 == before.0 + step.0
      && ExtraLinks(agents, a + 1, rand, existing, k0, color).1 == step.1
  {
  }

  /** `big` continues `small`, and `big` is `before` followed by `step`, which continues `small` too. */
  lemma ContinuesThrough(small: seq<Link>, before: seq<Link>, step: seq<Link>, big: seq<Link>)
    requires |small| <= |before| && before[..|small|] == small && big == before + step
    ensures |small| <= |big| && big[..|small|] == small
  {
    assert big[..|small|] == before[..|small|];
  }

  /** The extra links of the first `m` agents lead those of the first `n`. */
  lemma {:induction false} ExtraLinksPrefix(agents: seq<Node>, m: nat, n: nat, rand: Draws, existing: seq<Link>, k0: nat,
                                            color: (string, string) -> string)
    requires UnitDraws(rand) && 2 <= |agents| && m <= n <= |agents|
    ensures
      var small := ExtraLinks(agents, m, rand, existing, k0, color).0;
      var big := ExtraLinks(agents, n, rand, existing, k0, color).0;
      |small| <= |big| && big[..|small|] == small
    decreases n
  {
    var small := ExtraLinks(agents, m, rand, existing, k0, color).0;
    if m == n {
      assert small[..|small|] == small;
    } else {
      ExtraLinksPrefix(agents, m, n - 1, rand, existing, k0, color);
      var before := ExtraLinks(agents, n - 1, rand, existing, k0, color);
      var step := ExtraStep(agents, n - 1, rand, existing + before.0, before.1, color);
      ContinuesThrough(small, before.0, step.0, ExtraLinks(agents, n, rand, existing, k0, color).0);
    }
  }

  /** Each extra link of the first `n` agents after those of the first `m` leaves one of the agents `m` .. `n - 1`. */
  lemma {:induction false} ExtraLinksLeave(agents: seq<Node>, m: nat, n: nat, rand: Draws, existing: seq<Link>, k0: nat,
                                           color: (string, string) -> string)
    requires UnitDraws(rand) && 2 <= |agents| && m <= n <= |agents|
    ensures
      var small := ExtraLinks(agents, m, rand, existing, k0, color).0;
      var big := ExtraLinks(agents, n, rand, existing, k0, color).0;
      forall j :: |small| <= j < |big| ==> LeavesOneOf(big[j], agents, m, n)
    decreases n
  {
    if m < n {
      ExtraLinksLeave(agents, m, n - 1, rand, existing, k0, color);
      ExtraLinksPrefix(agents, m, n - 1, rand, existing, k0, color);
      ExtraLinksNext(agents, n - 1, rand, existing, k0, color);
      var before := ExtraLinks(agents, n - 1, rand, existing, k0, color);
      LeaveStep(|ExtraLinks(agents, m, rand, existing, k0, color).0|, before.0,
                ExtraStep(agents, n - 1, rand, existing + before.0, before.1, color).0, agents, m, n);
    }
  }

  /** `l` leaves one of the agents `m` .. `n - 1`. */
  predicate LeavesOneOf(l: Link, agents: seq<Node>, m: nat, n: nat)
    requires n <= |agents|
  {
    exists i :: m <= i < n && l.source == agents[i].id
  }

  /** Appending links that leave agent `n - 1` to links that leave agents `m` .. `n - 2` from `start` on. */
  lemma LeaveStep(start: nat, before: seq<Link>, step: seq<Link>, agents: seq<Node>, m: nat, n: nat)
    requires m < n <= |agents| && start <= |before|
    requires forall j :: start <= j < |before| ==> LeavesOneOf(before[j], agents, m, n - 1)
    requires forall l :: l in step ==> l.source == agents[n - 1].id
    ensures forall j :: start <= j < |before + step| ==> LeavesOneOf((before + step)[j], agents, m, n)
  {
    forall j | start <= j < |before + step|
      ensures LeavesOneOf((before + step)[j], agents, m, n)
    {
      if j < |before| {
        assert (before + step)[j] == before[j];
        assert LeavesOneOf(before[j], agents, m, n - 1);
      } else {
        assert (before + step)[j] in step;
        assert (before + step)[j].source == agents[n - 1].id;
      }
    }
  }

  /**
   * Each extra link joins two agents in its pair's colour, follows no link
   * that joins them already, and with distinct agent ids is no self-loop.
   */
  lemma {:induction false} ExtraLinksFresh(agents: seq<Node>, n: nat, rand: Draws, existing: seq<Link>, k0: nat,
                                           color: (string, string) -> string)
    requires UnitDraws(rand) && 2 <= |agents| && n <= |agents|
    ensures
      var added := ExtraLinks(agents, n, rand, existing, k0, color).0;
      && |added| <= n
      && forall j :: 0 <= j < |added| ==>
        && AgentLink(added[j], agents, color)
        && NoLinkJoins(existing + added[..j], added[j].source, added[j].target)
        && (DistinctIds(agents) ==> added[j].source != added[j].target)
    decreases n
  {
    if n > 0 {
      ExtraLinksFresh(agents, n - 1, rand, existing, k0, color);
      var before := ExtraLinks(agents, n - 1, rand, existing, k0, color);
      var step := ExtraStep(agents, n - 1, rand, existing + before.0, before.1, color);
      ExtraStepAdds(agents, n - 1, rand, existing + before.0, before.1, color);
      var added := ExtraLinks(agents, n, rand, existing, k0, color).0;
      assert added == before.0 + step.0;
      if step.0 == [] {
        assert added == before.0;
      } else {
        var l := step.0[0];
        assert l in step.0;
        assert added == before.0 + [l];
        ExtraLinkFresh(existing, before.0, l);
        assert added[|before.0|] == l;
      }
    }
  }

  /** A link joining a pair no earlier link joins may be appended without breaking that property. */
  lemma ExtraLinkFresh(existing: seq<Link>, added: seq<Link>, l: Link)
    requires forall j :: 0 <= j < |added| ==> NoLinkJoins(existing + added[..j], added[j].source, added[j].target)
    requires NoLinkJoins(existing + added, l.source, l.target)
    ensures forall j :: 0 <= j < |added| + 1 ==>
      NoLinkJoins(existing + (added + [l])[..j], (added + [l])[j].source, (added + [l])[j].target)
  {
    assert (added + [l])[..|added|] == added;
    forall j | 0 <= j < |added|
      ensures (added + [l])[..j] == added[..j]
    {
    }
  }

  /** With distinct agent ids, no two extra links leave the same agent: at most one per agent. */
  lemma {:induction false} OneExtraLinkPerAgent(agents: seq<Node>, n: nat, rand: Draws, existing: seq<Link>, k0: nat,
                                                color: (string, string) -> string)
    requires UnitDraws(rand) && 2 <= |agents| && n <= |agents|
    requires DistinctIds(agents)
    ensures
      var added := ExtraLinks(agents, n, rand, existing, k0, color).0;
      forall i, j :: 0 <= i < j < |added| ==> added[i].source != added[j].source
    decreases n
  {
    if n > 0 {
      OneExtraLinkPerAgent(agents, n - 1, rand, existing, k0, color);
      ExtraLinksLeave(agents, 0, n - 1, rand, existing, k0, color);
      assert ExtraLinks(agents, 0, rand, existing, k0, color).0 == [];
      ExtraLinksNext(agents, n - 1, rand, existing, k0, color);
      var before := ExtraLinks(agents, n - 1, rand, existing, k0, color);
      SourcesStayDistinct(before.0, ExtraStep(agents, n - 1, rand, existing + before.0, before.1, color).0, agents, n - 1);
    }
  }

  /**
   * Links leaving pairwise different agents among the first `a`, followed by
   * at most one link leaving agent `a`, still leave pairwise different agents.
   */
  lemma SourcesStayDistinct(before: seq<Link>, step: seq<Link>, agents: seq<Node>, a: nat)
    requires a < |agents| && DistinctIds(agents) && |step| <= 1
    requires forall i, j :: 0 <= i < j < |before| ==> before[i].source != before[j].source
    requires forall j :: 0 <= j < |before| ==> LeavesOneOf(before[j], agents, 0, a)
    requires forall l :: l in step ==> l.source == agents[a].id
    ensures forall i, j :: 0 <= i < j < |before + step| ==> (before + step)[i].source != (before + step)[j].source
  {
    if step != [] {
      assert step[0] in step;
      forall i | 0 <= i < |before|
        ensures before[i].source != step[0].source
      {
        assert LeavesOneOf(before[i], agents, 0, a);
        var p :| 0 <= p < a && before[i].source == agents[p].id;
      }
    }
  }

  /** Some link of `links` leaves `src`. */
  predicate SomeLinkLeaves(links: seq<Link>, src: string) {
    exists j :: 0 <= j < |links| && links[j].source == src
  }

  /**
   * Agent `a` has an extra link exactly when its roll exceeds 0.7 and no
   * earlier link joins it to the partner it draws; that link is then kept.
   */
  lemma ExtraLinkDrawn(agents: seq<Node>, a: nat, rand: Draws, existing: seq<Link>, k0: nat,
                       color: (string, string) -> string)
    requires UnitDraws(rand) && 2 <= |agents| && a < |agents|
    requires DistinctIds(agents)
    ensures
      var all := ExtraLinks(agents, |agents|, rand, existing, k0, color).0;
      var before := ExtraLinks(agents, a, rand, existing, k0, color);
      var l := DrawnExtraLink(agents, a, Partner(agents, rand, before.1 + 1), color);
      var kept := rand(before.1) > 0.7 && NoLinkJoins(existing + before.0, l.source, l.target);
      && (SomeLinkLeaves(all, agents[a].id) <==> kept)
      && (kept ==> l in all)
  {
    var all := ExtraLinks(agents, |agents|, rand, existing, k0, color).0;
    var before := ExtraLinks(agents, a, rand, existing, k0, color);
    var step := ExtraStep(agents, a, rand, existing + before.0, before.1, color);
    var mid := ExtraLinks(agents, a + 1, rand, existing, k0, color).0;
    ExtraLinksNext(agents, a, rand, existing, k0, color);
    ExtraStepAdds(agents, a, rand, existing + before.0, before.1, color);
    EarlierAgentsLinks(agents, a, rand, existing, k0, color);
    LaterAgentsLinks(agents, a + 1, rand, existing, k0, color);
    SoleLinkFrom(all, before.0, step.0, agents[a].id);
  }

  /** With distinct agent ids, no extra link of the agents before `a` leaves agent `a`. */
  lemma EarlierAgentsLinks(agents: seq<Node>, a: nat, rand: Draws, existing: seq<Link>, k0: nat,
                           color: (string, string) -> string)
    requires UnitDraws(rand) && 2 <= |agents| && a < |agents|
    requires DistinctIds(agents)
    ensures var before := ExtraLinks(agents, a, rand, existing, k0, color).0;
      forall j :: 0 <= j < |before| ==> before[j].source != agents[a].id
  {
    var before := ExtraLinks(agents, a, rand, existing, k0, color).0;
    ExtraLinksLeave(agents, 0, a, rand, existing, k0, color);
    assert |ExtraLinks(agents, 0, rand, existing, k0, color).0| == 0;
    assert var small := ExtraLinks(agents, 0, rand, existing, k0, color).0;
      var big := ExtraLinks(agents, a, rand, existing, k0, color).0;
      forall j :: |small| <= j < |big| ==> LeavesOneOf(big[j], agents, 0, a);
    assert forall j :: 0 <= j < |before| ==> LeavesOneOf(before[j], agents, 0, a);
    OthersLeave(before, 0, agents, 0, a, a);
  }

  /**
   * With distinct agent ids, the extra links of all agents continue those of
   * the first `m`, and none after them leaves an agent before `m`.
   */
  lemma LaterAgentsLinks(agents: seq<Node>, m: nat, rand: Draws, existing: seq<Link>, k0: nat,
                         color: (string, string) -> string)
    requires UnitDraws(rand) && 2 <= |agents| && 0 < m <= |agents|
    requires DistinctIds(agents)
    ensures
      var mid := ExtraLinks(agents, m, rand, existing, k0, color).0;
      var all := ExtraLinks(agents, |agents|, rand, existing, k0, color).0;
      && |mid| <= |all| && all[..|mid|] == mid
      && forall j :: |mid| <= j < |all| ==> all[j].source != agents[m - 1].id
  {
    var mid := ExtraLinks(agents, m, rand, existing, k0, color).0;
    var all := ExtraLinks(agents, |agents|, rand, existing, k0, color).0;
    ExtraLinksPrefix(agents, m, |agents|, rand, existing, k0, color);
    ExtraLinksLeave(agents, m, |agents|, rand, existing, k0, color);
    OthersLeave(all, |mid|, agents, m, |agents|, m - 1);
  }

  /** With distinct agent ids, links that leave agents `m` .. `n - 1` do not leave an agent `a` outside that range. */
  lemma OthersLeave(links: seq<Link>, start: nat, agents: seq<Node>, m: nat, n: nat, a: nat)
    requires n <= |agents| && a < |agents| && (a < m || n <= a) && DistinctIds(agents)
    requires forall j :: start <= j < |links| ==> LeavesOneOf(links[j], agents, m, n)
    ensures forall j :: start <= j < |links| ==> links[j].source != agents[a].id
  {
    forall j | start <= j < |links|
      ensures links[j].source != agents[a].id
    {
      assert LeavesOneOf(links[j], agents, m, n);
      var p :| m <= p < n && links[j].source == agents[p].id;
    }
  }

  /**
   * A run of at most one link leaving `src`, placed where no other link
   * leaves `src`: some link of `all` leaves `src` exactly when the run is not empty.
   */
  lemma SoleLinkFrom(all: seq<Link>, before: seq<Link>, step: seq<Link>, src: string)
    requires |step| <= 1 && |before| + |step| <= |all| && all[..|before| + |step|] == before + step
    requires forall j :: 0 <= j < |before| ==> before[j].source != src
    requires forall j :: |before| + |step| <= j < |all| ==> all[j].source != src
    requires forall l :: l in step ==> l.source == src
    ensures SomeLinkLeaves(all, src) <==> step != []
    ensures forall l :: l in step ==> l in all
  {
    forall j | 0 <= j < |before|
      ensures all[j] == before[j]
    {
      assert all[j] == all[..|before| + |step|][j];
    }
    if step != [] {
      assert step[0] in step;
      assert all[|before|] == all[..|before| + |step|][|before|] == step[0];
    }
  }

  /** An agent link in the colours of `nodes` between two of its agents is an extra link of `nodes`. */
  lemma ExtraLinkKind(l: Link, nodes: seq<Node>)
    requires AgentLink(l, AgentNodes(nodes), Colors(nodes))
    ensures IsExtraLink(l, nodes)
  {
  }

  /**
   * The body of the `forEach` over the agents, for agent `a`: the links it
   * adds to `links` (none or one) and the next unused draw.
   */
  method ExtraTurn(agents: seq<Node>, a: nat, nodes: seq<Node>, rand: Draws, links: seq<Link>, k0: nat)
    returns (more: seq<Link>, k: nat)
    requires UnitDraws(rand) && 2 <= |agents| && a < |agents|
    ensures more == ExtraStep(agents, a, rand, links, k0, Colors(nodes)).0
    ensures k == ExtraStep(agents, a, rand, links, k0, Colors(nodes)).1
  {
    ghost var step := ExtraStep(agents, a, rand, links, k0, Colors(nodes));
    ExtraStepAdds(agents, a, rand, links, k0, Colors(nodes));
    more, k := [], k0;
    var roll := rand(k);
    k := k + 1;
    if roll > 0.7 {
      var others := Without(agents, a);
      var q := Pick(rand(k), |others|);
      assert q == Partner(agents, rand, k);
      k := k + 1;
      var other := others[q];
      ghost var l := DrawnExtraLink(agents, a, q, Colors(nodes));
      assert l == Link(agents[a].id, other.id, 0.3, ConnectionColor(agents[a].id, other.id, nodes));
      var found := FindLink(links, agents[a].id, other.id);
      if found.None? {
        more := [Link(agents[a].id, other.id, 0.3, ConnectionColor(agents[a].id, other.id, nodes))];
        assert step.0 == [l];
      } else {
        assert step.0 == [];
      }
    } else {
      assert step.0 == [];
    }
  }

  /**
   * `agentNodes.forEach(...)`: for each agent, with probability 0.3
   * (`Math.random() > 0.7`), a link to another agent drawn at random, kept
   * only if no link of `existing` or of those added before it joins the two;
   * `nodes` gives the colours.
   */
  method AddExtraLinks(agents: seq<Node>, nodes: seq<Node>, rand: Draws, existing: seq<Link>, k0: nat)
    returns (added: seq<Link>, k: nat)
    requires UnitDraws(rand)
    requires |agents| >= 2
    ensures added == ExtraLinks(agents, |agents|, rand, existing, k0, Colors(nodes)).0
    ensures k == ExtraLinks(agents, |agents|, rand, existing, k0, Colors(nodes)).1
    ensures |added| <= |agents|
    ensures forall j :: 0 <= j < |added| ==> AgentLink(added[j], agents, Colors(nodes))
    ensures forall j :: 0 <= j < |added| ==> NoLinkJoins(existing + added[..j], added[j].source, added[j].target)
    ensures DistinctIds(agents) ==> forall l :: l in added ==> l.source != l.target
    ensures DistinctIds(agents) ==> forall i, j :: 0 <= i < j < |added| ==> added[i].source != added[j].source
  {
    added, k := [], k0;
    var a := 0;
    while a < |agents|
      invariant 0 <= a <= |agents|
      invariant added == ExtraLinks(agents, a, rand, existing, k0, Colors(nodes)).0
      invariant k == ExtraLinks(agents, a, rand, existing, k0, Colors(nodes)).1
    {
      ExtraLinksNext(agents, a, rand, existing, k0, Colors(nodes));
      var more;
      more, k := ExtraTurn(agents, a, nodes, rand, existing + added, k);
      added := added + more;
      a := a + 1;
    }
    ExtraLinksFresh(agents, |agents|, rand, existing, k0, Colors(nodes));
    if DistinctIds(agents) {
      OneExtraLinkPerAgent(agents, |agents|, rand, existing, k0, Colors(nodes));
    }
  }

  /** Links appended after `prefix` keep the kinds they had. */
  lemma AppendedKinds(prefix: seq<Link>, data: seq<Link>, extra: seq<Link>, nodes: seq<Node>)
    requires forall l :: l in data ==> IsDataLink(l, nodes)
    requires forall j :: 0 <= j < |extra| ==> IsExtraLink(extra[j], nodes)
    ensures forall j :: |prefix| <= j < |prefix + data + extra| ==>
      IsDataLink((prefix + data + extra)[j], nodes) || IsExtraLink((prefix + data + extra)[j], nodes)
  {
    var links := prefix + data + extra;
    forall j | |prefix| <= j < |links|
      ensures IsDataLink(links[j], nodes) || IsExtraLink(links[j], nodes)
    {
      if j < |prefix + data| {
        assert links[j] == data[j - |prefix|];
      } else {
        assert links[j] == extra[j - |prefix + data|];
      }
    }
  }

  /**
   * Every extra link, in the whole list, follows no link joining its two
   * ends; with distinct agent ids it is no self-loop.
   */
  lemma AppendedExtras(prefix: seq<Link>, data: seq<Link>, extra: seq<Link>, nodes: seq<Node>)
    requires forall l :: l in data ==> IsDataLink(l, nodes)
    requires forall j :: 0 <= j < |extra| ==> NoLinkJoins(prefix + data + extra[..j], extra[j].source, extra[j].target)
    requires DistinctIds(AgentNodes(nodes)) ==> forall l :: l in extra ==> l.source != l.target
    ensures forall j :: |prefix| <= j < |prefix + data + extra| && (prefix + data + extra)[j].value == 0.3 ==>
      NoLinkJoins((prefix + data + extra)[..j], (prefix + data + extra)[j].source, (prefix + data + extra)[j].target)
    ensures DistinctIds(AgentNodes(nodes)) ==>
      forall j :: |prefix| <= j < |prefix + data + extra| && (prefix + data + extra)[j].value == 0.3 ==>
        (prefix + data + extra)[j].source != (prefix + data + extra)[j].target
  {
    var links := prefix + data + extra;
    forall j | |prefix| <= j < |prefix + data|
      ensures links[j].value == 0.5
    {
      assert links[j] == data[j - |prefix|] && links[j] in data;
    }
    forall j | |prefix + data| <= j < |links|
      ensures NoLinkJoins(links[..j], links[j].source, links[j].target)
      ensures DistinctIds(AgentNodes(nodes)) ==> links[j].source != links[j].target
    {
      var e := j - |prefix + data|;
      assert links[j] == extra[e] && links[j] in extra;
      assert links[..j] == prefix + data + extra[..e];
    }
  }

  /** Every data node keeps, after any appending, a link drawn for it. */
  lemma AppendedData(prefix: seq<Link>, data: seq<Link>, extra: seq<Link>, nodes: seq<Node>)
    requires forall n :: 0 <= n < |nodes| && IsDataId(nodes[n].id) ==> exists l :: l in data && DataLinkOf(l, nodes[n])
    ensures forall n :: 0 <= n < |nodes| && IsDataId(nodes[n].id) ==>
      exists l :: l in (prefix + data + extra)[|prefix|..] && DataLinkOf(l, nodes[n])
  {
    assert (prefix + data + extra)[|prefix|..] == data + extra;
    forall n | 0 <= n < |nodes| && IsDataId(nodes[n].id)
      ensures exists l :: l in data + extra && DataLinkOf(l, nodes[n])
    {
      var l :| l in data && DataLinkOf(l, nodes[n]);
      assert l in data + extra;
    }
  }

  /** The core links lead any list that starts with them. */
  lemma CorePrefix(core: seq<Link>, data: seq<Link>, extra: seq<Link>, nodes: seq<Node>)
    requires |core| == |CoreConnections|
    requires forall j :: 0 <= j < |core| ==> core[j] == CoreLink(CoreConnections[j], nodes)
    ensures forall j :: 0 <= j < |CoreConnections| ==> (core + data + extra)[j] == CoreLink(CoreConnections[j], nodes)
  {
    forall j | 0 <= j < |CoreConnections|
      ensures (core + data + extra)[j] == CoreLink(CoreConnections[j], nodes)
    {
      assert (core + data + extra)[j] == core[j];
    }
  }

  /** The fifteen core connections' links, in order. */
  function CoreLinks(nodes: seq<Node>): seq<Link> {
    seq(|CoreConnections|, j requires 0 <= j < |CoreConnections| => CoreLink(CoreConnections[j], nodes))
  }

  /** A run of node `n` in some links is still its run once more links follow. */
  lemma DataRunExtend(data: seq<Link>, more: seq<Link>, nodes: seq<Node>, n: nat, agents: seq<Node>, rand: Draws, k0: nat)
    requires UnitDraws(rand) && |agents| >= 1 && n < |nodes|
    requires DataRun(data, nodes, n, agents, rand, k0)
    ensures DataRun(data + more, nodes, n, agents, rand, k0)
  {
    var lo := |DataLinks(nodes, n, agents, rand, k0).0|;
    var hi := |DataLinks(nodes, n + 1, agents, rand, k0).0|;
    forall j | lo <= j < hi
      ensures DataLinkOf((data + more)[j], nodes[n])
    {
      assert (data + more)[j] == data[j];
    }
  }

  /** Every node's run in the data links is its run in the list that puts them after `prefix` and before `extra`. */
  lemma AppendedRuns(prefix: seq<Link>, data: seq<Link>, extra: seq<Link>, nodes: seq<Node>, agents: seq<Node>, rand: Draws)
    requires UnitDraws(rand) && |agents| >= 1
    requires forall n :: 0 <= n < |nodes| ==> DataRun(data, nodes, n, agents, rand, 0)
    ensures forall n :: 0 <= n < |nodes| ==> DataRun((prefix + data + extra)[|prefix|..], nodes, n, agents, rand, 0)
  {
    assert (prefix + data + extra)[|prefix|..] == data + extra;
    forall n | 0 <= n < |nodes|
      ensures DataRun(data + extra, nodes, n, agents, rand, 0)
    {
      DataRunExtend(data, extra, nodes, n, agents, rand, 0);
    }
  }

  /**
   * The list `generateMoStarLinks` returns for the draws `rand`: the core
   * links in order, then the data links, then the extra agent links.
   */
  function MoStarLinks(nodes: seq<Node>, rand: Draws): seq<Link>
    requires UnitDraws(rand) && |AgentNodes(nodes)| >= 2
  {
    var agents := AgentNodes(nodes);
    var data := DataLinks(nodes, |nodes|, agents, rand, 0);
    CoreLinks(nodes) + data.0 + ExtraLinks(agents, |agents|, rand, CoreLinks(nodes) + data.0, data.1, Colors(nodes)).0
  }

  /** The list holds the core links, one to three links per data node and at most one extra link per agent. */
  lemma MoStarLinksSize(nodes: seq<Node>, rand: Draws)
    requires UnitDraws(rand) && |AgentNodes(nodes)| >= 2
    ensures var links := MoStarLinks(nodes, rand);
      |CoreConnections| + DataCount(nodes) <= |links| <= |CoreConnections| + 3 * DataCount(nodes) + |AgentNodes(nodes)|
  {
    var agents := AgentNodes(nodes);
    var core := CoreLinks(nodes);
    var data := DataLinks(nodes, |nodes|, agents, rand, 0);
    var extra := ExtraLinks(agents, |agents|, rand, core + data.0, data.1, Colors(nodes)).0;
    DataLinksFacts(nodes, rand, 0);
    ExtraLinksFresh(agents, |agents|, rand, core + data.0, data.1, Colors(nodes));
  }

  /** The list starts with the fifteen core links, in order. */
  lemma MoStarLinksCore(nodes: seq<Node>, rand: Draws)
    requires UnitDraws(rand) && |AgentNodes(nodes)| >= 2
    ensures var links := MoStarLinks(nodes, rand);
      forall j :: 0 <= j < |CoreConnections| ==> links[j] == CoreLink(CoreConnections[j], nodes)
  {
    var agents := AgentNodes(nodes);
    var core := CoreLinks(nodes);
    var data := DataLinks(nodes, |nodes|, agents, rand, 0);
    var extra := ExtraLinks(agents, |agents|, rand, core + data.0, data.1, Colors(nodes)).0;
    CorePrefix(core, data.0, extra, nodes);
  }

  /** After the core links, every link is a data link or an extra link. */
  lemma MoStarLinksKinds(nodes: seq<Node>, rand: Draws)
    requires UnitDraws(rand) && |AgentNodes(nodes)| >= 2
    ensures var links := MoStarLinks(nodes, rand);
      forall j :: |CoreConnections| <= j < |links| ==> IsDataLink(links[j], nodes) || IsExtraLink(links[j], nodes)
  {
    var agents := AgentNodes(nodes);
    var core := CoreLinks(nodes);
    var data := DataLinks(nodes, |nodes|, agents, rand, 0);
    var extra := ExtraLinks(agents, |agents|, rand, core + data.0, data.1, Colors(nodes)).0;
    DataLinksFacts(nodes, rand, 0);
    ExtraLinksFresh(agents, |agents|, rand, core + data.0, data.1, Colors(nodes));
    forall j | 0 <= j < |extra|
      ensures IsExtraLink(extra[j], nodes)
    {
      ExtraLinkKind(extra[j], nodes);
    }
    AppendedKinds(core, data.0, extra, nodes);
  }

  /** After the core links, every node has its run of data links. */
  lemma MoStarLinksRuns(nodes: seq<Node>, rand: Draws)
    requires UnitDraws(rand) && |AgentNodes(nodes)| >= 2
    ensures var links := MoStarLinks(nodes, rand);
      forall n :: 0 <= n < |nodes| ==> DataRun(links[|CoreConnections|..], nodes, n, AgentNodes(nodes), rand, 0)
  {
    var agents := AgentNodes(nodes);
    var core := CoreLinks(nodes);
    var data := DataLinks(nodes, |nodes|, agents, rand, 0);
    var extra := ExtraLinks(agents, |agents|, rand, core + data.0, data.1, Colors(nodes)).0;
    DataLinksFacts(nodes, rand, 0);
    AppendedRuns(core, data.0, extra, nodes, agents, rand);
  }

  /** After the core links, every data node has a link drawn for it. */
  lemma MoStarLinksData(nodes: seq<Node>, rand: Draws)
    requires UnitDraws(rand) && |AgentNodes(nodes)| >= 2
    ensures var links := MoStarLinks(nodes, rand);
      forall n :: 0 <= n < |nodes| && IsDataId(nodes[n].id) ==>
        exists l :: l in links[|CoreConnections|..] && DataLinkOf(l, nodes[n])
  {
    var agents := AgentNodes(nodes);
    var core := CoreLinks(nodes);
    var data := DataLinks(nodes, |nodes|, agents, rand, 0);
    var extra := ExtraLinks(agents, |agents|, rand, core + data.0, data.1, Colors(nodes)).0;
    DataLinksFacts(nodes, rand, 0);
    AppendedData(core, data.0, extra, nodes);
  }

  /**
   * No extra link repeats a pair an earlier link of the list joins, in
   * either direction; with distinct agent ids none is a self-loop.
   */
  lemma MoStarLinksFresh(nodes: seq<Node>, rand: Draws)
    requires UnitDraws(rand) && |AgentNodes(nodes)| >= 2
    ensures var links := MoStarLinks(nodes, rand);
      && (forall j :: |CoreConnections| <= j < |links| && links[j].value == 0.3 ==>
            NoLinkJoins(links[..j], links[j].source, links[j].target))
      && (DistinctIds(AgentNodes(nodes)) ==>
            forall j :: |CoreConnections| <= j < |links| && links[j].value == 0.3 ==> links[j].source != links[j].target)
  {
    var agents := AgentNodes(nodes);
    var core := CoreLinks(nodes);
    var data := DataLinks(nodes, |nodes|, agents, rand, 0);
    var extra := ExtraLinks(agents, |agents|, rand, core + data.0, data.1, Colors(nodes)).0;
    DataLinksFacts(nodes, rand, 0);
    ExtraLinksFresh(agents, |agents|, rand, core + data.0, data.1, Colors(nodes));
    AppendedExtras(core, data.0, extra, nodes);
  }

  /**
   * `generateMoStarLinks`: the core links in order, then the data links, then
   * the extra agent links, each part as its draws make it.
   */
  method GenerateLinks(nodes: seq<Node>, rand: Draws) returns (links: seq<Link>)
    requires UnitDraws(rand)
    requires |AgentNodes(nodes)| >= 2
    ensures links == MoStarLinks(nodes, rand)
    ensures |CoreConnections| + DataCount(nodes) <= |links| <= |CoreConnections| + 3 * DataCount(nodes) + |AgentNodes(nodes)|
    ensures forall j :: 0 <= j < |CoreConnections| ==> links[j] == CoreLink(CoreConnections[j], nodes)
    ensures forall j :: |CoreConnections| <= j < |links| ==> IsDataLink(links[j], nodes) || IsExtraLink(links[j], nodes)
    ensures forall n :: 0 <= n < |nodes| ==> DataRun(links[|CoreConnections|..], nodes, n, AgentNodes(nodes), rand, 0)
    ensures forall n :: 0 <= n < |nodes| && IsDataId(nodes[n].id) ==>
      exists l :: l in links[|CoreConnections|..] && DataLinkOf(l, nodes[n])
    ensures forall j :: |CoreConnections| <= j < |links| && links[j].value == 0.3 ==>
      NoLinkJoins(links[..j], links[j].source, links[j].target)
    ensures DistinctIds(AgentNodes(nodes)) ==>
      forall j :: |CoreConnections| <= j < |links| && links[j].value == 0.3 ==> links[j].source != links[j].target
  {
    var agents := AgentNodes(nodes);
    var core := AddCoreLinks(nodes);
    assert core == CoreLinks(nodes);
    var data, k := AddDataLinks(nodes, rand, 0);
    var extra, k2 := AddExtraLinks(agents, nodes, rand, core + data, k);
    links := core + data + extra;
    MoStarLinksSize(nodes, rand);
    MoStarLinksCore(nodes, rand);
    MoStarLinksKinds(nodes, rand);
    MoStarLinksRuns(nodes, rand);
    MoStarLinksData(nodes, rand);
    MoStarLinksFresh(nodes, rand);
  }

  lemma {:induction false} AgentNodesAppend(a: seq<Node>, b: seq<Node>)
    ensures AgentNodes(a + b) == AgentNodes(a) + AgentNodes(b)
  {
    if a != [] {
      assert (a + b)[1..] == a[1..] + b;
      AgentNodesAppend(a[1..], b);
    } else {
      assert a + b == b;
    }
  }

  lemma {:induction false} DataCountAppend(a: seq<Node>, b: seq<Node>)
    ensures DataCount(a + b) == DataCount(a) + DataCount(b)
  {
    if b == [] {
      assert a + b == a;
    } else {
      assert (a + b)[..|a + b| - 1] == a + b[..|b| - 1];
      DataCountAppend(a, b[..|b| - 1]);
    }
  }

  /** Nodes none of which is a data node are all agents. */
  lemma {:induction false} NoDataNodes(xs: seq<Node>)
    requires forall i :: 0 <= i < |xs| ==> !IsDataId(xs[i].id)
    ensures AgentNodes(xs) == xs && DataCount(xs) == 0
  {
    if xs != [] {
      NoDataNodes(xs[1..]);
      NoDataNodes(xs[..|xs| - 1]);
    }
  }

  /** Nodes all of which are data nodes hold no agent. */
  lemma {:induction false} OnlyDataNodes(xs: seq<Node>)
    requires forall i :: 0 <= i < |xs| ==> IsDataId(xs[i].id)
    ensures AgentNodes(xs) == [] && DataCount(xs) == |xs|
  {
    if xs != [] {
      OnlyDataNodes(xs[1..]);
      OnlyDataNodes(xs[..|xs| - 1]);
    }
  }

  /** No MoStar agent id looks like a data node's. */
  lemma AgentIdsAreNotData()
    ensures forall i :: 0 <= i < |MostarAgents| ==> !IsDataId(MostarAgents[i].id)
  {
    forall i | 0 <= i < |MostarAgents|
      ensures !IsDataId(MostarAgents[i].id)
    {
      var id := MostarAgents[i].id;
      assert id[0] != 'd' || id[1] != 'a';
    }
  }

  /** The MoStar agent ids are pairwise distinct. */
  lemma AgentIdsDistinct()
    ensures forall i, j :: 0 <= i < j < |MostarAgents| ==> MostarAgents[i].id != MostarAgents[j].id
  {
  }

  /** The agents' nodes are all agents, with distinct ids. */
  lemma AgentPartIsAgents()
    ensures AgentNodes(AgentPartNodes()) == AgentPartNodes()
    ensures DataCount(AgentPartNodes()) == 0
    ensures DistinctIds(AgentPartNodes())
  {
    var agents := AgentPartNodes();
    AgentIdsAreNotData();
    AgentIdsDistinct();
    assert forall i :: 0 <= i < |agents| ==> agents[i].id == MostarAgents[i].id;
    NoDataNodes(agents);
  }

  /** The data nodes, `data-0` .. `data-29`, hold no agent. */
  lemma DataPartIsData(rand: Draws)
    requires UnitDraws(rand)
    ensures AgentNodes(DataPartNodes(rand)) == [] && DataCount(DataPartNodes(rand)) == 30
    ensures forall i :: 0 <= i < |DataPartNodes(rand)| ==> IsDataId(DataPartNodes(rand)[i].id)
  {
    var data := DataPartNodes(rand);
    forall i | 0 <= i < |data|
      ensures IsDataId(data[i].id)
    {
      assert data[i].id[..5] == "data-";
    }
    OnlyDataNodes(data);
  }

  /** The data nodes' ids, `data-0` .. `data-29`, are pairwise distinct. */
  lemma DataIdsDistinct(rand: Draws)
    requires UnitDraws(rand)
    ensures DistinctIds(DataPartNodes(rand))
  {
    var data := DataPartNodes(rand);
    forall i, j | 0 <= i < j < |data|
      ensures data[i].id != data[j].id
    {
      if data[i].id == data[j].id {
        assert "data-" + NatToString(i) == "data-" + NatToString(j);
        assert NatToString(i) == ("data-" + NatToString(i))[5..];
        assert NatToString(j) == ("data-" + NatToString(j))[5..];
        NatToStringInjective(i, j);
      }
    }
  }

  /**
   * The generated graph: its agents are the twelve MoStar agents in order,
   * it holds thirty data nodes, and all its ids are distinct, so
   * `GenerateLinks` may be given it.
   */
  lemma GeneratedNodes(rand: Draws)
    requires UnitDraws(rand)
    ensures AgentNodes(GenerateNodes(rand)) == GenerateNodes(rand)[..|MostarAgents|]
    ensures DistinctIds(AgentNodes(GenerateNodes(rand)))
    ensures |AgentNodes(GenerateNodes(rand))| == 12
    ensures DataCount(GenerateNodes(rand)) == 30
  {
    var agents, data := AgentPartNodes(), DataPartNodes(rand);
    var nodes := GenerateNodes(rand);
    assert nodes[..|MostarAgents|] == agents;
    AgentPartIsAgents();
    DataPartIsData(rand);
    AgentNodesAppend(agents, data);
    DataCountAppend(agents, data);
  }

  /** No two generated nodes share an id, agents and data nodes alike. */
  lemma GeneratedIdsDistinct(rand: Draws)
    requires UnitDraws(rand)
    ensures DistinctIds(GenerateNodes(rand))
  {
    AgentPartIsAgents();
    AgentPartNotData();
    DataPartIsData(rand);
    DataIdsDistinct(rand);
    DistinctIdsAppend(AgentPartNodes(), DataPartNodes(rand));
  }

  /** Agents before data nodes: no agent id is a data id, so the ids stay distinct. */
  lemma AgentPartNotData()
    ensures forall i :: 0 <= i < |AgentPartNodes()| ==> !IsDataId(AgentPartNodes()[i].id)
  {
    AgentIdsAreNotData();
  }

  lemma DistinctIdsAppend(agents: seq<Node>, data: seq<Node>)
    requires DistinctIds(agents) && DistinctIds(data)
    requires forall i :: 0 <= i < |agents| ==> !IsDataId(agents[i].id)
    requires forall i :: 0 <= i < |data| ==> IsDataId(data[i].id)
    ensures DistinctIds(agents + data)
  {
    var nodes := agents + data;
    forall i, j | 0 <= i < j < |nodes|
      ensures nodes[i].id != nodes[j].id
    {
      if j < |agents| {
        assert nodes[i] == agents[i] && nodes[j] == agents[j];
      } else if i >= |agents| {
        assert nodes[i] == data[i - |agents|] && nodes[j] == data[j - |agents|];
      } else {
        assert nodes[i] == agents[i] && nodes[j] == data[j - |agents|];
      }
    }
  }
}
