/** The agent graph the REST server draws for an agent tree
    (server/restapi/services/agentgraphgenerator.go). The graph library keeps every graph
    it creates as a separate object; the generator writes into the graph it is drawing, its
    parent, and the fresh graph of each workflow cluster. Here the graphs live in one
    sequence and are referred to by index, so that the two graphs a call writes to may be
    the same one, exactly as two pointers may. */
module AgentGraph {
  import opened Wrappers
  import AgentCard

  type Agent = AgentCard.Agent
  type Tool = AgentCard.Tool

  /** The highlighted pairs of a request: each is a list of node names. */
  type Pairs = seq<seq<string>>

  // ---- colours, already quoted for the DOT output ----

  const DarkGreen := "\"#0F5223\""
  const LightGreen := "\"#69CB87\""
  const LightGray := "\"#cccccc\""
  const White := "\"#ffffff\""
  const Background := "\"#333537\""

  // ---- the graph library (gographviz), as values ----

  type Attrs = map<string, string>

  datatype Edge = Edge(src: string, dst: string, attrs: Attrs)

  /** A graph object: its name, direction and attributes, its nodes and registered
      subgraphs with their attributes, the parent-child relations between graph and node
      names, and its edges in the order they were added. */
  datatype Graph = Graph(
    name: string,
    directed: bool,
    attrs: Attrs,
    nodes: map<string, Attrs>,
    subGraphs: map<string, Attrs>,
    relations: set<(string, string)>,
    edges: seq<Edge>)

  /** `gographviz.NewGraph()`. */
  const NewGraph := Graph("", false, map[], map[], map[], {}, [])

  /** Adding attributes to an entry that already exists overrides the ones it repeats. */
  function Merge(m: map<string, Attrs>, key: string, attrs: Attrs): Attrs {
    (if key in m then m[key] else map[]) + attrs
  }

  /** `AddNode(parent, name, attrs)`. */
  function WithNode(gr: Graph, parent: string, name: string, attrs: Attrs): Graph {
    gr.(nodes := gr.nodes[name := Merge(gr.nodes, name, attrs)], relations := gr.relations + {(parent, name)})
  }

  /** `AddSubGraph(parent, name, attrs)`. */
  function WithSubGraph(gr: Graph, parent: string, name: string, attrs: Attrs): Graph {
    gr.(subGraphs := gr.subGraphs[name := Merge(gr.subGraphs, name, attrs)], relations := gr.relations + {(parent, name)})
  }

  /** `AddEdge(src, dst, true, attrs)`: edges are kept in a list, so drawing the same
      edge twice gives two edges. */
  function WithEdge(gr: Graph, src: string, dst: string, attrs: Attrs): Graph {
    gr.(edges := gr.edges + [Edge(src, dst, attrs)])
  }

  // ---- what is drawn for an instance ----

  /** The value `drawNode` and the caption functions are given: an agent, a tool or
      anything else. */
  datatype Instance = AgentInstance(agent: Agent) | ToolInstance(tool: Tool) | OtherInstance

  /** `nodeName`. */
  function NodeName(inst: Instance): string {
    match inst
    case AgentInstance(a) => a.name
    case ToolInstance(t) => t.name
    case OtherInstance => "Unknown instance type"
  }

  /** The string value of a workflow agent type. */
  function TypeString(t: AgentCard.AgentType): string
    requires AgentCard.IsWorkflow(t)
  {
    if t == AgentCard.LoopAgent then "LoopAgent"
    else if t == AgentCard.SequentialAgent then "SequentialAgent"
    else "ParallelAgent"
  }

  /** `shouldBuildAgentCluster`: the agents drawn as clusters are exactly the workflow
      agents the agent card calls workflows. */
  predicate ShouldBuildAgentCluster(inst: Instance)
    ensures ShouldBuildAgentCluster(inst) <==> inst.AgentInstance? && AgentCard.IsWorkflow(inst.agent.agentType)
  {
    match inst
    case AgentInstance(a) =>
      a.agentType in {AgentCard.LoopAgent, AgentCard.SequentialAgent, AgentCard.ParallelAgent}
    case _ => false
  }

  /** `nodeCaption`: always a quoted string. */
  function NodeCaption(inst: Instance): (r: string)
    ensures |r| >= 2 && r[0] == '"' && r[|r| - 1] == '"'
  {
    var caption :=
      match inst
      case AgentInstance(a) =>
        if ShouldBuildAgentCluster(inst) then a.name + " (" + TypeString(a.agentType) + ")"
        else "\U{1F916} " + a.name
      case ToolInstance(t) => "\U{1F527} " + t.name
      case OtherInstance => "Unsupported agent or tool type";
    "\"" + caption + "\""
  }

  /** `nodeShape`. */
  function NodeShape(inst: Instance): string {
    match inst
    case AgentInstance(_) => "ellipse"
    case ToolInstance(_) => "box"
    case OtherInstance => "cylinder"
  }

  /** Captions and shapes by kind: a workflow agent shows its type, another agent a robot,
      a tool a wrench, and anything else a fixed text. */
  lemma AgentCaptions(name: string, t: AgentCard.AgentType)
    ensures var a := AgentInstance(AgentCard.Agent(name, "", t, None, None, []));
            && NodeShape(a) == "ellipse"
            && NodeCaption(a) == if AgentCard.IsWorkflow(t) then "\"" + (name + " (" + TypeString(t) + ")") + "\""
                                 else "\"" + ("\U{1F916} " + name) + "\""
  {
  }

  lemma ToolCaption(tool: Tool)
    ensures NodeCaption(ToolInstance(tool)) == "\"" + ("\U{1F527} " + tool.name) + "\"" && NodeShape(ToolInstance(tool)) == "box"
  {
  }

  lemma OtherCaption()
    ensures NodeCaption(OtherInstance) == "\"Unsupported agent or tool type\"" && NodeShape(OtherInstance) == "cylinder"
    ensures NodeName(OtherInstance) == "Unknown instance type"
  {
  }

  /** `highlighted`: some pair mentions the name. */
  function Highlighted(name: string, pairs: Pairs): (r: bool)
    ensures r <==> exists k | 0 <= k < |pairs| :: name in pairs[k]
  {
    if pairs == [] then false
    else if name in pairs[0] then true
    else
      var rest := Highlighted(name, pairs[1..]);
      assert forall k | 1 <= k < |pairs| :: pairs[k] == pairs[1..][k - 1];
      rest
  }

  /** A pair of exactly two names that joins `from` and `to`, in either direction. */
  predicate Connects(pair: seq<string>, from: string, to: string) {
    |pair| == 2 && ((pair[0] == from && pair[1] == to) || (pair[0] == to && pair[1] == from))
  }

  /** `edgeHighlighted`: the first pair of exactly two names that joins the nodes
      decides; `EdgeHighlightedMeaning` states it. */
  function EdgeHighlighted(from: string, to: string, pairs: Pairs): (r: Option<bool>)
  {
    if pairs == [] then None
    else if |pairs[0]| == 2 && pairs[0][0] == from && pairs[0][1] == to then Some(true)
    else if |pairs[0]| == 2 && pairs[0][0] == to && pairs[0][1] == from then Some(false)
    else EdgeHighlighted(from, to, pairs[1..])
  }

  /** Nothing when no two-name pair joins the nodes; otherwise the first such pair
      decides, true when it runs from `from` to `to`. */
  lemma {:induction false} EdgeHighlightedMeaning(from: string, to: string, pairs: Pairs)
    ensures EdgeHighlighted(from, to, pairs).None? <==> forall k | 0 <= k < |pairs| :: !Connects(pairs[k], from, to)
    ensures EdgeHighlighted(from, to, pairs).Some? ==> exists k | 0 <= k < |pairs| ::
              && Connects(pairs[k], from, to)
              && (forall j | 0 <= j < k :: !Connects(pairs[j], from, to))
              && (EdgeHighlighted(from, to, pairs).value <==> pairs[k][0] == from && pairs[k][1] == to)
  {
    if pairs != [] && !Connects(pairs[0], from, to) {
      var rest := pairs[1..];
      EdgeHighlightedMeaning(from, to, rest);
      assert forall k | 1 <= k < |pairs| :: pairs[k] == rest[k - 1];
      if EdgeHighlighted(from, to, rest).Some? {
        var k :| 0 <= k < |rest| && Connects(rest[k], from, to)
                 && (forall j | 0 <= j < k :: !Connects(rest[j], from, to))
                 && (EdgeHighlighted(from, to, rest).value <==> rest[k][0] == from && rest[k][1] == to);
        assert Connects(pairs[k + 1], from, to);
        assert forall j | 0 <= j < k + 1 :: !Connects(pairs[j], from, to);
      }
    } else if pairs != [] {
      assert Connects(pairs[0], from, to);
    }
  }

  /** The attributes of a drawn edge. */
  function EdgeAttrs(highlight: Option<bool>): Attrs {
    match highlight
    case None => map["color" := LightGray, "arrowhead" := "none"]
    case Some(true) => map["color" := LightGreen, "arrowhead" := "normal"]
    case Some(false) => map["color" := LightGreen, "arrowhead" := "normal", "dir" := "back"]
  }

  /** The attributes of a plain (non-cluster) node. */
  function NodeAttrs(caption: string, shape: string, highlighted: bool): Attrs {
    map["label" := caption, "shape" := shape, "fontcolor" := LightGray,
        "color" := if highlighted then DarkGreen else LightGray,
        "style" := if highlighted then "filled" else "rounded"]
  }

  /** The attributes of a workflow agent's cluster. */
  function ClusterAttrs(caption: string): Attrs {
    map["style" := "rounded", "color" := White, "label" := caption, "fontcolor" := LightGray]
  }

  /** The next sub-agent a cluster's sub-agent `i` (of `n`) is joined to: the following
      one in a sequential agent, the following one or the first in a loop agent, and none
      in a parallel agent. */
  function LinkTarget(t: AgentCard.AgentType, n: nat, i: nat): (r: Option<nat>)
    requires i < n
    ensures r.Some? ==> r.value < n
  {
    if t == AgentCard.SequentialAgent then (if i < n - 1 then Some(i + 1) else None)
    else if t == AgentCard.LoopAgent then Some(if i + 1 >= n then 0 else i + 1)
    else None
  }

  // ---- termination measure for the recursive drawing ----

  /** The number of agents in a tree. */
  function Size(a: Agent): (r: nat)
    ensures r >= 1
  {
    1 + ForestSize(a.subAgents)
  }

  function ForestSize(s: seq<Agent>): nat {
    if s == [] then 0 else Size(s[0]) + ForestSize(s[1..])
  }

  function InstanceSize(inst: Instance): nat {
    if inst.AgentInstance? then Size(inst.agent) else 0
  }

  lemma {:induction false} ForestSizeBound(s: seq<Agent>, i: nat)
    requires i < |s|
    ensures Size(s[i]) <= ForestSize(s)
    decreases i
  {
    if i > 0 {
      ForestSizeBound(s[1..], i - 1);
      assert s[1..][i - 1] == s[i];
    }
  }

  lemma SubAgentSmaller(a: Agent, i: nat)
    requires i < |a.subAgents|
    ensures Size(a.subAgents[i]) < Size(a)
  {
    ForestSizeBound(a.subAgents, i);
  }

  // ---- the drawing, as functions over all graphs and the visited names ----

  /** All graph objects created so far, and the names `visitedNodes` marks. */
  datatype World = World(graphs: seq<Graph>, visited: set<string>)

  /** What a drawing step keeps of a graph: its name, direction and attributes, every
      node, subgraph and relation, and its edges as a prefix. */
  predicate Kept(a: Graph, b: Graph) {
    && b.name == a.name && b.directed == a.directed && b.attrs == a.attrs
    && a.nodes.Keys <= b.nodes.Keys && a.subGraphs.Keys <= b.subGraphs.Keys
    && a.relations <= b.relations && a.edges <= b.edges
  }

  /** Drawing only adds: graphs, visited names, and content to every graph. */
  predicate Grows(w: World, r: World) {
    && |w.graphs| <= |r.graphs| && w.visited <= r.visited
    && forall i | 0 <= i < |w.graphs| :: Kept(w.graphs[i], r.graphs[i])
  }

  /** Of the graphs that already existed, only `g` and `p` may have changed. */
  predicate Touches(w: World, r: World, g: nat, p: nat)
    requires |w.graphs| <= |r.graphs|
  {
    forall i | 0 <= i < |w.graphs| && i != g && i != p :: r.graphs[i] == w.graphs[i]
  }

  /** `p` gained at most nodes: its edges and subgraphs are as before. */
  predicate OnlyNodesAdded(w: World, r: World, p: nat)
    requires p < |w.graphs| <= |r.graphs|
  {
    r.graphs[p].edges == w.graphs[p].edges && r.graphs[p].subGraphs == w.graphs[p].subGraphs
  }

  /** Two drawing steps compose: what each keeps, both keep. */
  lemma Chain(a: World, b: World, c: World, g: nat, p: nat)
    requires Grows(a, b) && Grows(b, c) && Touches(a, b, g, p) && Touches(b, c, g, p)
    ensures Grows(a, c) && Touches(a, c, g, p)
    ensures p < |a.graphs| && OnlyNodesAdded(a, b, p) && OnlyNodesAdded(b, c, p) ==> OnlyNodesAdded(a, c, p)
  {
    forall i | 0 <= i < |a.graphs|
      ensures Kept(a.graphs[i], c.graphs[i])
    {
      var x, y, z := a.graphs[i], b.graphs[i], c.graphs[i];
      assert x.edges <= y.edges && y.edges <= z.edges;
      assert z.edges[..|x.edges|] == y.edges[..|y.edges|][..|x.edges|];
    }
  }

  /** `drawEdge(graph g, from, to)`. */
  function DrawEdgeOn(w: World, g: nat, from: string, to: string, pairs: Pairs): (r: World)
    requires g < |w.graphs|
    ensures Grows(w, r) && |r.graphs| == |w.graphs| && Touches(w, r, g, g)
    ensures r.graphs[g].nodes == w.graphs[g].nodes && r.graphs[g].subGraphs == w.graphs[g].subGraphs
    ensures r.graphs[g].edges == w.graphs[g].edges + [Edge(from, to, EdgeAttrs(EdgeHighlighted(from, to, pairs)))]
  {
    w.(graphs := w.graphs[g := WithEdge(w.graphs[g], from, to, EdgeAttrs(EdgeHighlighted(from, to, pairs)))])
  }

  /** `drawNode(graph g, parentGraph p, inst)`: marks the name visited; a workflow agent
      registers a fresh cluster graph as a subgraph of `g` and draws its sub-agents there,
      anything else becomes a node of `p` that belongs to `g`. */
  function DrawNodeOn(w: World, g: nat, p: nat, inst: Instance, pairs: Pairs): (r: World)
    requires g < |w.graphs| && p < |w.graphs|
    ensures Grows(w, r) && Touches(w, r, g, p)
    ensures g != p ==> OnlyNodesAdded(w, r, p)
    ensures NodeName(inst) in r.visited
    decreases InstanceSize(inst), 2
  {
    var name := NodeName(inst);
    var marked := w.(visited := w.visited + {name});
    if ShouldBuildAgentCluster(inst) then
      var c := |marked.graphs|;
      var created := marked.(graphs := marked.graphs + [NewGraph.(name := "cluster_" + name)]);
      var registered := created.(graphs := created.graphs[g :=
        WithSubGraph(created.graphs[g], created.graphs[g].name, "cluster_" + name, ClusterAttrs(NodeCaption(inst)))]);
      DrawClusterFrom(registered, g, c, inst.agent, pairs, 0)
    else
      marked.(graphs := marked.graphs[p :=
        WithNode(marked.graphs[p], marked.graphs[g].name, name, NodeAttrs(NodeCaption(inst), NodeShape(inst), Highlighted(name, pairs)))])
  }

  /** `drawCluster(parentGraph, cluster c, a)` from sub-agent `i` on: each sub-agent is
      built into the cluster, and then joined to its link target in the parent. */
  function DrawClusterFrom(w: World, parent: nat, c: nat, a: Agent, pairs: Pairs, i: nat): (r: World)
    requires parent < |w.graphs| && c < |w.graphs| && i <= |a.subAgents|
    ensures Grows(w, r) && Touches(w, r, parent, c)
    ensures parent != c ==> r.graphs[parent].subGraphs == w.graphs[parent].subGraphs
    ensures forall k | i <= k < |a.subAgents| :: a.subAgents[k].name in r.visited
    decreases Size(a), 1, |a.subAgents| - i
  {
    if i == |a.subAgents| then w
    else
      var sub := a.subAgents[i];
      SubAgentSmaller(a, i);
      var built := BuildGraphOn(w, c, parent, sub, pairs);
      var target := LinkTarget(a.agentType, |a.subAgents|, i);
      var linked := if target.Some? then DrawEdgeOn(built, parent, sub.name, a.subAgents[target.value].name, pairs) else built;
      var r := DrawClusterFrom(linked, parent, c, a, pairs, i + 1);
      Chain(w, built, linked, parent, c);
      Chain(w, linked, r, parent, c);
      r
  }

  /** `buildGraph(graph g, parentGraph p, a)`: nothing for a visited name; otherwise the
      agent's node, then a node and an edge per tool of an LLM agent, then the sub-agents
      in order. */
  function BuildGraphOn(w: World, g: nat, p: nat, a: Agent, pairs: Pairs): (r: World)
    requires g < |w.graphs| && p < |w.graphs|
    ensures Grows(w, r) && Touches(w, r, g, p)
    ensures g != p ==> OnlyNodesAdded(w, r, p)
    ensures a.name in r.visited
    decreases Size(a), 3
  {
    if a.name in w.visited then w
    else
      var drawn := DrawNodeOn(w, g, p, AgentInstance(a), pairs);
      var withTools := if a.llm.Some? then ToolsFrom(drawn, g, p, a.name, a.llm.value.tools, pairs, 0) else drawn;
      var r := SubAgentsFrom(withTools, g, p, a, pairs, 0);
      Chain(w, drawn, withTools, g, p);
      Chain(w, withTools, r, g, p);
      r
  }

  /** The tool loop of `buildGraph` from tool `i` on. */
  function ToolsFrom(w: World, g: nat, p: nat, owner: string, tools: seq<Tool>, pairs: Pairs, i: nat): (r: World)
    requires g < |w.graphs| && p < |w.graphs| && i <= |tools|
    ensures Grows(w, r) && Touches(w, r, g, p)
    ensures g != p ==> OnlyNodesAdded(w, r, p)
    decreases 0, 3, |tools| - i
  {
    if i == |tools| then w
    else
      var drawn := DrawNodeOn(w, g, p, ToolInstance(tools[i]), pairs);
      var linked := DrawEdgeOn(drawn, g, owner, tools[i].name, pairs);
      var r := ToolsFrom(linked, g, p, owner, tools, pairs, i + 1);
      Chain(w, drawn, linked, g, p);
      Chain(w, linked, r, g, p);
      r
  }

  /** The sub-agent loop of `buildGraph` from sub-agent `i` on. */
  function SubAgentsFrom(w: World, g: nat, p: nat, a: Agent, pairs: Pairs, i: nat): (r: World)
    requires g < |w.graphs| && p < |w.graphs| && i <= |a.subAgents|
    ensures Grows(w, r) && Touches(w, r, g, p)
    ensures g != p ==> OnlyNodesAdded(w, r, p)
    decreases Size(a), 1, |a.subAgents| - i
  {
    if i == |a.subAgents| then w
    else
      SubAgentSmaller(a, i);
      var built := BuildGraphOn(w, g, p, a.subAgents[i], pairs);
      var r := SubAgentsFrom(built, g, p, a, pairs, i + 1);
      Chain(w, built, r, g, p);
      r
  }

  /** The graph `GetAgentGraph` starts from, named, directed, left to right. */
  const RootGraph := NewGraph.(name := "AgentGraph", directed := true, attrs := map["rankdir" := "LR", "bgcolor" := Background])

  /** The graph `GetAgentGraph` renders: the root graph after `buildGraph(root, root, agent)`
      with nothing visited. */
  function AgentGraphOf(root: Agent, pairs: Pairs): (r: Graph)
    ensures r.name == "AgentGraph" && r.directed
    ensures r.attrs == map["rankdir" := "LR", "bgcolor" := Background]
  {
    var w := World([RootGraph], {});
    BuildGraphOn(w, 0, 0, root, pairs).graphs[0]
  }

  // ---- what the drawing guarantees ----

  /** The names of a list of agents. */
  function Names(agents: seq<Agent>): seq<string> {
    seq(|agents|, k requires 0 <= k < |agents| => agents[k].name)
  }

  /** The links a workflow cluster draws between its sub-agents' names: each to the next
      in a sequential agent, each to the next and the last back to the first in a loop
      agent, and none in a parallel agent. */
  function ClusterLinks(t: AgentCard.AgentType, names: seq<string>): seq<(string, string)> {
    if t == AgentCard.SequentialAgent then
      if |names| == 0 then [] else seq(|names| - 1, k requires 0 <= k < |names| - 1 => (names[k], names[k + 1]))
    else if t == AgentCard.LoopAgent then
      seq(|names|, k requires 0 <= k < |names| => (names[k], names[(k + 1) % |names|]))
    else []
  }

  /** The edges drawn for a list of links. */
  function LinkEdges(links: seq<(string, string)>, pairs: Pairs): seq<Edge> {
    seq(|links|, k requires 0 <= k < |links| =>
      Edge(links[k].0, links[k].1, EdgeAttrs(EdgeHighlighted(links[k].0, links[k].1, pairs))))
  }

  function Min(x: nat, y: nat): nat {
    if x <= y then x else y
  }

  /** Step `i` of a cluster draws the link at `i` when it has a target, and no link
      otherwise. */
  lemma LinkStep(a: Agent, pairs: Pairs, i: nat)
    requires i < |a.subAgents|
    ensures var n := |a.subAgents|;
            var links := LinkEdges(ClusterLinks(a.agentType, Names(a.subAgents)), pairs);
            var target := LinkTarget(a.agentType, n, i);
            && |links| <= n
            && (target.Some? ==>
                  var from, to := a.subAgents[i].name, a.subAgents[target.value].name;
                  links[Min(i, |links|)..] == [Edge(from, to, EdgeAttrs(EdgeHighlighted(from, to, pairs)))] + links[Min(i + 1, |links|)..])
            && (target.None? ==> Min(i, |links|) == Min(i + 1, |links|))
  {
    var n := |a.subAgents|;
    var links := LinkEdges(ClusterLinks(a.agentType, Names(a.subAgents)), pairs);
    var target := LinkTarget(a.agentType, n, i);
    if target.Some? {
      assert i < |links|;
      if a.agentType == AgentCard.LoopAgent {
        assert target.value == (i + 1) % n;
      }
      assert links[i..] == [links[i]] + links[i + 1..];
    }
  }

  lemma {:induction false} DrawClusterEdgesFrom(w: World, parent: nat, c: nat, a: Agent, pairs: Pairs, i: nat)
    requires parent < |w.graphs| && c < |w.graphs| && parent != c && i <= |a.subAgents|
    ensures var links := LinkEdges(ClusterLinks(a.agentType, Names(a.subAgents)), pairs);
            DrawClusterFrom(w, parent, c, a, pairs, i).graphs[parent].edges ==
            w.graphs[parent].edges + links[Min(i, |links|)..]
    decreases |a.subAgents| - i
  {
    var links := LinkEdges(ClusterLinks(a.agentType, Names(a.subAgents)), pairs);
    if i < |a.subAgents| {
      var sub := a.subAgents[i];
      var built := BuildGraphOn(w, c, parent, sub, pairs);
      var target := LinkTarget(a.agentType, |a.subAgents|, i);
      var linked := if target.Some? then DrawEdgeOn(built, parent, sub.name, a.subAgents[target.value].name, pairs) else built;
      DrawClusterEdgesFrom(linked, parent, c, a, pairs, i + 1);
      LinkStep(a, pairs, i);
      assert DrawClusterFrom(w, parent, c, a, pairs, i) == DrawClusterFrom(linked, parent, c, a, pairs, i + 1);
    } else {
      LinkStepsEnd(a, pairs);
    }
  }

  lemma LinkStepsEnd(a: Agent, pairs: Pairs)
    ensures |LinkEdges(ClusterLinks(a.agentType, Names(a.subAgents)), pairs)| <= |a.subAgents|
  {
  }

  /** A workflow cluster adds to its parent graph exactly the edges of its links, in
      order, whatever its sub-agents draw inside the cluster. */
  lemma DrawClusterEdges(w: World, parent: nat, c: nat, a: Agent, pairs: Pairs)
    requires parent < |w.graphs| && c < |w.graphs| && parent != c
    ensures DrawClusterFrom(w, parent, c, a, pairs, 0).graphs[parent].edges ==
            w.graphs[parent].edges + LinkEdges(ClusterLinks(a.agentType, Names(a.subAgents)), pairs)
  {
    DrawClusterEdgesFrom(w, parent, c, a, pairs, 0);
  }

  /** The edge `drawEdge` appends is green exactly when some two-name pair joins its
      ends, and drawn backwards exactly when the first such pair runs the other way. */
  lemma DrawEdgeAttributes(w: World, g: nat, from: string, to: string, pairs: Pairs)
    requires g < |w.graphs|
    ensures var edges := DrawEdgeOn(w, g, from, to, pairs).graphs[g].edges;
            var attrs := edges[|edges| - 1].attrs;
            var joined := exists k | 0 <= k < |pairs| :: Connects(pairs[k], from, to);
            && edges[..|edges| - 1] == w.graphs[g].edges
            && edges[|edges| - 1].src == from && edges[|edges| - 1].dst == to
            && attrs["color"] == (if joined then LightGreen else LightGray)
            && attrs["arrowhead"] == (if joined then "normal" else "none")
            && ("dir" in attrs <==> exists k | 0 <= k < |pairs| ::
                  && Connects(pairs[k], from, to)
                  && (forall j | 0 <= j < k :: !Connects(pairs[j], from, to))
                  && !(pairs[k][0] == from && pairs[k][1] == to))
  {
    EdgeHighlightedMeaning(from, to, pairs);
    var edges := DrawEdgeOn(w, g, from, to, pairs).graphs[g].edges;
    assert edges[..|edges| - 1] == w.graphs[g].edges;
    var h := EdgeHighlighted(from, to, pairs);
    if h.Some? {
      var k :| 0 <= k < |pairs| && Connects(pairs[k], from, to)
               && (forall j | 0 <= j < k :: !Connects(pairs[j], from, to))
               && (h.value <==> pairs[k][0] == from && pairs[k][1] == to);
      forall k' | 0 <= k' < |pairs| && Connects(pairs[k'], from, to) && (forall j | 0 <= j < k' :: !Connects(pairs[j], from, to))
        ensures k' == k
      {
      }
    }
  }

  /** A plain node carries its caption and shape, belongs to the graph being drawn, and
      is filled dark green exactly when some pair mentions its name. */
  lemma DrawNodeAttributes(w: World, g: nat, p: nat, inst: Instance, pairs: Pairs)
    requires g < |w.graphs| && p < |w.graphs|
    requires !ShouldBuildAgentCluster(inst) && NodeName(inst) !in w.graphs[p].nodes
    ensures var r := DrawNodeOn(w, g, p, inst, pairs);
            var name := NodeName(inst);
            var attrs := r.graphs[p].nodes[name];
            var mentioned := exists k | 0 <= k < |pairs| :: name in pairs[k];
            && (w.graphs[g].name, name) in r.graphs[p].relations
            && attrs["label"] == NodeCaption(inst) && attrs["shape"] == NodeShape(inst)
            && attrs["fontcolor"] == LightGray
            && (attrs["color"] == DarkGreen <==> mentioned)
            && (attrs["style"] == "filled" <==> mentioned)
  {
  }

  /** A workflow agent becomes a fresh graph named `cluster_<name>`, registered in the
      graph being drawn with the cluster's caption, and no new node of the parent graph. */
  lemma ClusterRegistered(w: World, g: nat, p: nat, a: Agent, pairs: Pairs)
    requires g < |w.graphs| && p < |w.graphs| && g != p
    requires AgentCard.IsWorkflow(a.agentType) && "cluster_" + a.name !in w.graphs[g].subGraphs
    ensures var r := DrawNodeOn(w, g, p, AgentInstance(a), pairs);
            && |w.graphs| < |r.graphs| && r.graphs[|w.graphs|].name == "cluster_" + a.name
            && r.graphs[g].subGraphs["cluster_" + a.name] == ClusterAttrs(NodeCaption(AgentInstance(a)))
            && r.graphs[p] == w.graphs[p]
  {
    var c := |w.graphs|;
    var created := w.(visited := w.visited + {a.name}).(graphs := w.graphs + [NewGraph.(name := "cluster_" + a.name)]);
    var registered := created.(graphs := created.graphs[g :=
      WithSubGraph(created.graphs[g], created.graphs[g].name, "cluster_" + a.name, ClusterAttrs(NodeCaption(AgentInstance(a))))]);
    assert registered.graphs[c].name == "cluster_" + a.name;
    var r := DrawClusterFrom(registered, g, c, a, pairs, 0);
    assert Kept(registered.graphs[c], r.graphs[c]);
  }

  /** `buildGraph` on a visited name changes nothing, so building the same agent twice is
      building it once. */
  lemma BuildGraphOnce(w: World, g: nat, p: nat, a: Agent, pairs: Pairs)
    requires g < |w.graphs| && p < |w.graphs|
    ensures a.name in w.visited ==> BuildGraphOn(w, g, p, a, pairs) == w
    ensures var r := BuildGraphOn(w, g, p, a, pairs);
            BuildGraphOn(r, g, p, a, pairs) == r
  {
  }

  lemma KeptEdge(x: Graph, y: Graph, e: Edge)
    requires Kept(x, y) && e in x.edges
    ensures e in y.edges
  {
    assert y.edges[..|x.edges|] == x.edges;
  }

  lemma {:induction false} ToolsFromDraws(w: World, g: nat, p: nat, owner: string, tools: seq<Tool>, pairs: Pairs, i: nat)
    requires g < |w.graphs| && p < |w.graphs| && i <= |tools|
    ensures var r := ToolsFrom(w, g, p, owner, tools, pairs, i);
            forall k | i <= k < |tools| ::
              && tools[k].name in r.graphs[p].nodes
              && Edge(owner, tools[k].name, EdgeAttrs(EdgeHighlighted(owner, tools[k].name, pairs))) in r.graphs[g].edges
    decreases |tools| - i
  {
    if i < |tools| {
      var t := tools[i];
      var drawn := DrawNodeOn(w, g, p, ToolInstance(t), pairs);
      var linked := DrawEdgeOn(drawn, g, owner, t.name, pairs);
      var r := ToolsFrom(linked, g, p, owner, tools, pairs, i + 1);
      ToolsFromDraws(linked, g, p, owner, tools, pairs, i + 1);
      var e := Edge(owner, t.name, EdgeAttrs(EdgeHighlighted(owner, t.name, pairs)));
      assert t.name in linked.graphs[p].nodes;
      assert e in linked.graphs[g].edges;
      KeptEdge(linked.graphs[g], r.graphs[g], e);
    }
  }

  /** An LLM agent that is not a workflow and not yet visited is drawn as a node of the
      parent graph, each of its tools as a node, and an edge from the agent to each tool in
      the graph being drawn (however the sub-agents draw afterwards). */
  lemma BuildGraphDrawsTools(w: World, g: nat, p: nat, a: Agent, pairs: Pairs)
    requires g < |w.graphs| && p < |w.graphs|
    requires a.name !in w.visited && a.llm.Some? && !AgentCard.IsWorkflow(a.agentType)
    ensures var r := BuildGraphOn(w, g, p, a, pairs);
            && a.name in r.graphs[p].nodes
            && forall t | t in a.llm.value.tools ::
                 && t.name in r.graphs[p].nodes
                 && Edge(a.name, t.name, EdgeAttrs(EdgeHighlighted(a.name, t.name, pairs))) in r.graphs[g].edges
  {
    var tools := a.llm.value.tools;
    var drawn := DrawNodeOn(w, g, p, AgentInstance(a), pairs);
    assert a.name in drawn.graphs[p].nodes;
    var withTools := ToolsFrom(drawn, g, p, a.name, tools, pairs, 0);
    ToolsFromDraws(drawn, g, p, a.name, tools, pairs, 0);
    var r := SubAgentsFrom(withTools, g, p, a, pairs, 0);
    assert Kept(withTools.graphs[p], r.graphs[p]) && Kept(withTools.graphs[g], r.graphs[g]);
    forall t | t in tools
      ensures t.name in r.graphs[p].nodes
      ensures Edge(a.name, t.name, EdgeAttrs(EdgeHighlighted(a.name, t.name, pairs))) in r.graphs[g].edges
    {
      var k :| 0 <= k < |tools| && tools[k] == t;
      KeptEdge(withTools.graphs[g], r.graphs[g], Edge(a.name, t.name, EdgeAttrs(EdgeHighlighted(a.name, t.name, pairs))));
    }
  }

  lemma {:induction false} SubAgentsFromVisited(w: World, g: nat, p: nat, a: Agent, pairs: Pairs, i: nat)
    requires g < |w.graphs| && p < |w.graphs| && i <= |a.subAgents|
    requires forall k | i <= k < |a.subAgents| :: a.subAgents[k].name in w.visited
    ensures SubAgentsFrom(w, g, p, a, pairs, i) == w
    decreases |a.subAgents| - i
  {
    if i < |a.subAgents| {
      SubAgentsFromVisited(w, g, p, a, pairs, i + 1);
    }
  }

  /** The rendered graph of a workflow root holds exactly the edges of the root's cluster
      links: the tool edges of the agents inside the cluster, and everything a nested
      workflow draws, go into cluster graph objects that are never rendered. */
  lemma WorkflowRootEdges(root: Agent, pairs: Pairs)
    requires AgentCard.IsWorkflow(root.agentType) && root.llm.None?
    ensures AgentGraphOf(root, pairs).edges == LinkEdges(ClusterLinks(root.agentType, Names(root.subAgents)), pairs)
    ensures "cluster_" + root.name in AgentGraphOf(root, pairs).subGraphs
  {
    var w := World([RootGraph], {});
    var inst := AgentInstance(root);
    var marked := w.(visited := w.visited + {root.name});
    var created := marked.(graphs := marked.graphs + [NewGraph.(name := "cluster_" + root.name)]);
    var registered := created.(graphs := created.graphs[0 :=
      WithSubGraph(created.graphs[0], created.graphs[0].name, "cluster_" + root.name, ClusterAttrs(NodeCaption(inst)))]);
    assert registered.graphs[0].edges == [];
    var drawn := DrawClusterFrom(registered, 0, 1, root, pairs, 0);
    assert drawn == DrawNodeOn(w, 0, 0, inst, pairs);
    DrawClusterEdges(registered, 0, 1, root, pairs);
    SubAgentsFromVisited(drawn, 0, 0, root, pairs, 0);
    assert BuildGraphOn(w, 0, 0, root, pairs) == drawn;
  }

  // ---- the generator ----

  /** The graph objects the generator has created, and its `visitedNodes` map. */
  class Canvas {
    var graphs: seq<Graph>
    var visited: set<string>

    function State(): World
      reads this
    {
      World(graphs, visited)
    }

    constructor (graphs: seq<Graph>)
      ensures State() == World(graphs, {})
    {
      this.graphs := graphs;
      visited := {};
    }

    /** `drawEdge`. */
    method DrawEdge(g: nat, from: string, to: string, pairs: Pairs)
      requires g < |graphs|
      modifies this
      ensures State() == DrawEdgeOn(old(State()), g, from, to, pairs)
    {
      var highlight := EdgeHighlighted(from, to, pairs);
      var attrs: Attrs := map[];
      if highlight.Some? {
        attrs := attrs["color" := LightGreen];
        if !highlight.value {
          attrs := attrs["arrowhead" := "normal"]["dir" := "back"];
        } else {
          attrs := attrs["arrowhead" := "normal"];
        }
      } else {
        attrs := attrs["color" := LightGray]["arrowhead" := "none"];
      }
      graphs := graphs[g := WithEdge(graphs[g], from, to, attrs)];
    }

    /** `drawNode`. */
    method DrawNode(g: nat, p: nat, inst: Instance, pairs: Pairs)
      requires g < |graphs| && p < |graphs|
      modifies this
      ensures State() == DrawNodeOn(old(State()), g, p, inst, pairs)
      decreases InstanceSize(inst), 2
    {
      var name := NodeName(inst);
      var shape := NodeShape(inst);
      var caption := NodeCaption(inst);
      var highlighted := Highlighted(name, pairs);
      var isCluster := ShouldBuildAgentCluster(inst);
      visited := visited + {name};
      if isCluster {
        var c := |graphs|;
        graphs := graphs + [NewGraph.(name := "cluster_" + name)];
        graphs := graphs[g := WithSubGraph(graphs[g], graphs[g].name, graphs[c].name, ClusterAttrs(caption))];
        DrawCluster(g, c, inst.agent, pairs);
      } else {
        var attrs := map["label" := caption, "shape" := shape, "fontcolor" := LightGray];
        if highlighted {
          attrs := attrs["color" := DarkGreen]["style" := "filled"];
        } else {
          attrs := attrs["color" := LightGray]["style" := "rounded"];
        }
        graphs := graphs[p := WithNode(graphs[p], graphs[g].name, name, attrs)];
      }
    }

    /** `drawCluster`. */
    method DrawCluster(parent: nat, c: nat, a: Agent, pairs: Pairs)
      requires parent < |graphs| && c < |graphs|
      modifies this
      ensures State() == DrawClusterFrom(old(State()), parent, c, a, pairs, 0)
      decreases Size(a), 1
    {
      var subs := a.subAgents;
      for i := 0 to |subs|
        invariant parent < |graphs| && c < |graphs|
        invariant DrawClusterFrom(State(), parent, c, a, pairs, i) == DrawClusterFrom(old(State()), parent, c, a, pairs, 0)
      {
        SubAgentSmaller(a, i);
        BuildGraph(c, parent, subs[i], pairs);
        if a.agentType == AgentCard.SequentialAgent {
          if i < |subs| - 1 {
            DrawEdge(parent, subs[i].name, subs[i + 1].name, pairs);
          }
        } else if a.agentType == AgentCard.LoopAgent {
          var next := i + 1;
          if next >= |subs| {
            next := 0;
          }
          DrawEdge(parent, subs[i].name, subs[next].name, pairs);
        }
      }
    }

    /** `buildGraph`. */
    method BuildGraph(g: nat, p: nat, a: Agent, pairs: Pairs)
      requires g < |graphs| && p < |graphs|
      modifies this
      ensures State() == BuildGraphOn(old(State()), g, p, a, pairs)
      decreases Size(a), 3
    {
      if a.name in visited {
        return;
      }
      DrawNode(g, p, AgentInstance(a), pairs);
      if a.llm.Some? {
        var tools := a.llm.value.tools;
        ghost var drawn := State();
        for i := 0 to |tools|
          invariant g < |graphs| && p < |graphs|
          invariant ToolsFrom(State(), g, p, a.name, tools, pairs, i) == ToolsFrom(drawn, g, p, a.name, tools, pairs, 0)
        {
          DrawNode(g, p, ToolInstance(tools[i]), pairs);
          DrawEdge(g, a.name, tools[i].name, pairs);
        }
      }
      ghost var withTools := State();
      for i := 0 to |a.subAgents|
        invariant g < |graphs| && p < |graphs|
        invariant SubAgentsFrom(State(), g, p, a, pairs, i) == SubAgentsFrom(withTools, g, p, a, pairs, 0)
      {
        SubAgentSmaller(a, i);
        BuildGraph(g, p, a.subAgents[i], pairs);
      }
    }
  }

  /** `GetAgentGraph`, up to rendering the root graph as text. */
  method GetAgentGraph(root: Agent, pairs: Pairs) returns (graph: Graph)
    ensures graph == AgentGraphOf(root, pairs)
  {
    var g := NewGraph;
    g := g.(name := "AgentGraph");
    g := g.(directed := true);
    g := g.(attrs := g.attrs["rankdir" := "LR"]);
    g := g.(attrs := g.attrs["bgcolor" := Background]);
    var canvas := new Canvas([g]);
    canvas.BuildGraph(0, 0, root, pairs);
    graph := canvas.graphs[0];
  }
}
