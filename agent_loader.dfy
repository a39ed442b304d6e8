/** The agent loaders of the REST server (server/restapi/services/agentloader.go): a
    single-agent loader that answers for its root, and a multi-agent loader that keys
    the root and the other agents by name and refuses repeated names. */
module AgentLoader {
  import opened Wrappers
  import Text
  import AgentCard

  type Agent = AgentCard.Agent

  /** `singleAgentLoader`. */
  datatype SingleAgentLoader = SingleAgentLoader(root: Agent) {
    /** `ListAgents`. */
    function ListAgents(): seq<string> {
      [root.name]
    }

    /** `LoadAgent`: the root, for the empty name and for its own name. */
    function LoadAgent(name: string): (r: Result<Agent>)
      ensures r.Ok? <==> name == "" || name == root.name
      ensures r.Ok? ==> r.value == root
    {
      if name == "" then Ok(root)
      else if name == root.name then Ok(root)
      else Err("cannot load agent '" + name + "' - provide an empty string or use '" + root.name + "'")
    }

    /** `RootAgent`. */
    function RootAgent(): Agent {
      root
    }
  }

  /** Every name a single loader lists loads its root, and so does the empty name. */
  lemma SingleListedNamesLoad(l: SingleAgentLoader)
    ensures |l.ListAgents()| == 1
    ensures forall n | n in l.ListAgents() :: l.LoadAgent(n) == Ok(l.RootAgent())
    ensures l.LoadAgent("") == Ok(l.RootAgent())
  {
  }

  /** Agent `k` of `agents` repeats the name of the root or of an earlier agent. */
  predicate RepeatsName(root: Agent, agents: seq<Agent>, k: nat)
    requires k < |agents|
  {
    agents[k].name == root.name || exists j | 0 <= j < k :: agents[j].name == agents[k].name
  }

  /** The names in the order `NewMultiAgentLoader` inserts them: the root's, then the
      other agents'. */
  function InsertionNames(root: Agent, agents: seq<Agent>): seq<string> {
    [root.name] + seq(|agents|, k requires 0 <= k < |agents| => agents[k].name)
  }

  predicate Distinct(names: seq<string>) {
    forall i, j | 0 <= i < j < |names| :: names[i] != names[j]
  }

  /** Some agent repeats a name exactly when the root and the agents do not all have
      different names, whether the repeat is the same agent twice or two agents. */
  lemma RepeatsIffNotDistinct(root: Agent, agents: seq<Agent>)
    ensures (exists k | 0 <= k < |agents| :: RepeatsName(root, agents, k)) <==> !Distinct(InsertionNames(root, agents))
  {
    var names := InsertionNames(root, agents);
    if k :| 0 <= k < |agents| && RepeatsName(root, agents, k) {
      if agents[k].name == root.name {
        assert names[0] == names[k + 1];
      } else {
        var j :| 0 <= j < k && agents[j].name == agents[k].name;
        assert names[j + 1] == names[k + 1];
      }
    }
    if !Distinct(names) {
      var i, j :| 0 <= i < j < |names| && names[i] == names[j];
      if i == 0 {
        assert RepeatsName(root, agents, j - 1);
      } else {
        assert agents[i - 1].name == agents[j - 1].name;
        assert RepeatsName(root, agents, j - 1);
      }
    }
  }

  /** `multiAgentLoader`. */
  datatype MultiAgentLoader = MultiAgentLoader(agentMap: map<string, Agent>, root: Agent) {
    /** `ListAgents`: every key once, in an order Go leaves unspecified (the choice of the
        next key stands for map iteration). */
    method ListAgents() returns (names: seq<string>)
      ensures |names| == |agentMap|
      ensures forall n :: n in names <==> n in agentMap
      ensures forall i, j | 0 <= i < j < |names| :: names[i] != names[j]
    {
      names := [];
      var remaining := agentMap.Keys;
      while remaining != {}
        invariant remaining <= agentMap.Keys
        invariant forall n :: n in names <==> n in agentMap && n !in remaining
        invariant forall i, j | 0 <= i < j < |names| :: names[i] != names[j]
        invariant |names| + |remaining| == |agentMap.Keys|
        decreases |remaining|
      {
        var n :| n in remaining;
        names := names + [n];
        remaining := remaining - {n};
      }
    }

    /** `LoadAgent`: the agent under the name, or an error naming it. */
    method LoadAgent(name: string) returns (r: Result<Agent>)
      ensures r.Ok? <==> name in agentMap
      ensures r.Ok? ==> r.value == agentMap[name]
      ensures r.Err? ==> Text.HasPrefix(r.error, "agent " + name + " not found. Please specify one of those: ")
    {
      if name !in agentMap {
        var listed := ListAgents();
        var prefix := "agent " + name + " not found. Please specify one of those: ";
        var message := prefix + ("[" + Text.Join(listed, " ") + "]");
        assert message[..|prefix|] == prefix;
        return Err(message);
      }
      return Ok(agentMap[name]);
    }

    /** `RootAgent`. */
    function RootAgent(): Agent {
      root
    }
  }

  /** `NewMultiAgentLoader`: fails on the first agent whose name the root or an earlier
      agent already has, and otherwise keys the root and every agent by name. */
  method NewMultiAgentLoader(root: Agent, agents: seq<Agent>) returns (r: Result<MultiAgentLoader>)
    ensures r.Err? <==> exists k | 0 <= k < |agents| :: RepeatsName(root, agents, k)
    ensures r.Err? ==> exists k | 0 <= k < |agents| ::
              && RepeatsName(root, agents, k)
              && (forall j | 0 <= j < k :: !RepeatsName(root, agents, j))
              && r.error == "duplicate agent name: " + agents[k].name
    ensures r.Ok? ==> r.value.RootAgent() == root
    ensures r.Ok? ==> r.value.agentMap.Keys == {root.name} + set k | 0 <= k < |agents| :: agents[k].name
    ensures r.Ok? ==> r.value.agentMap[root.name] == root
    ensures r.Ok? ==> forall k | 0 <= k < |agents| :: r.value.agentMap[agents[k].name] == agents[k]
  {
    var m := map[root.name := root];
    for i := 0 to |agents|
      invariant m.Keys == {root.name} + set k | 0 <= k < i :: agents[k].name
      invariant m[root.name] == root
      invariant forall k | 0 <= k < i :: m[agents[k].name] == agents[k]
      invariant forall k | 0 <= k < i :: !RepeatsName(root, agents, k)
    {
      var a := agents[i];
      if a.name in m {
        assert RepeatsName(root, agents, i);
        return Err("duplicate agent name: " + a.name);
      }
      m := m[a.name := a];
    }
    return Ok(MultiAgentLoader(m, root));
  }
}
