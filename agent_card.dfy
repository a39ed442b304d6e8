/** The skills an A2A agent card advertises for an agent (server/adka2a/agent_card.go):
    the agent's own skills, built from its type, description, instructions and tools,
    followed by the skills of its direct sub-agents, renamed after them. */
module AgentCard {
  import opened Wrappers
  import Text

  // ---- the agent as the builder sees it ----

  /** The type recorded in an agent's internal state; an agent without internal state is
      a custom agent. */
  datatype AgentType = CustomAgent | LLMAgent | LoopAgent | SequentialAgent | ParallelAgent

  datatype Tool = Tool(name: string, description: string)

  /** The state of an LLM agent. */
  datatype LLMState = LLMState(instruction: string, globalInstruction: string, tools: seq<Tool>)

  /** An agent: `maxIterations` is present when its internal state holds a loop agent's
      configuration, and `llm` when it is an LLM agent. */
  datatype Agent = Agent(
    name: string,
    description: string,
    agentType: AgentType,
    maxIterations: Option<int>,
    llm: Option<LLMState>,
    subAgents: seq<Agent>)

  datatype AgentSkill = AgentSkill(id: string, name: string, description: string, tags: seq<string>)

  // ---- per-type tables ----

  /** `getDefaultAgentDescription`. */
  function DefaultDescription(t: AgentType): string {
    match t
    case LoopAgent => "A loop workflow agent"
    case SequentialAgent => "A sequential workflow agent"
    case ParallelAgent => "A parallel workflow agent"
    case LLMAgent => "An LLM-based agent"
    case CustomAgent => "A custom agent"
  }

  /** `getAgentTypeTag`. */
  function TypeTag(t: AgentType): string {
    match t
    case LoopAgent => "loop_workflow"
    case SequentialAgent => "sequential_workflow"
    case ParallelAgent => "parallel_workflow"
    case LLMAgent => "llm_agent"
    case CustomAgent => "custom_agent"
  }

  /** `isWorkflowAgent`. */
  predicate IsWorkflow(t: AgentType) {
    t == LoopAgent || t == SequentialAgent || t == ParallelAgent
  }

  /** `getAgentSkillName`: "model" for an LLM agent, "workflow" for a workflow agent, and
      "custom" otherwise. */
  function SkillName(t: AgentType): (r: string)
    ensures r == "model" <==> t == LLMAgent
    ensures r == "workflow" <==> IsWorkflow(t)
    ensures r == "custom" <==> t == CustomAgent
  {
    if t == LLMAgent then "model" else if IsWorkflow(t) then "workflow" else "custom"
  }

  /** Each type has its own tag and its own default description. */
  lemma TablesInjective(t1: AgentType, t2: AgentType)
    requires t1 != t2
    ensures TypeTag(t1) != TypeTag(t2)
    ensures DefaultDescription(t1) != DefaultDescription(t2)
  {
    assert TypeTag(t1)[0] != TypeTag(t2)[0] || TypeTag(t1)[1] != TypeTag(t2)[1];
    assert DefaultDescription(t1)[2] != DefaultDescription(t2)[2];
  }

  // ---- pronoun replacement ----

  /** A word character of `\b` (ASCII letters, digits and the underscore). */
  predicate IsWordChar(c: char) {
    ('a' <= c <= 'z') || ('A' <= c <= 'Z') || ('0' <= c <= '9') || c == '_'
  }

  function Lower(c: char): char {
    if 'A' <= c <= 'Z' then (c as int - 'A' as int + 'a' as int) as char else c
  }

  /** The pattern `(?i)\bp\b` matches at `i`, for a lower-case `p` that starts and ends
      with a word character: the text equals `p` there up to case, and is not part of a
      longer word. */
  predicate MatchAt(s: string, i: nat, p: string) {
    && i + |p| <= |s|
    && (forall k | 0 <= k < |p| :: Lower(s[i + k]) == p[k])
    && (i == 0 || !IsWordChar(s[i - 1]))
    && (i + |p| == |s| || !IsWordChar(s[i + |p|]))
  }

  /** `ReplaceAllString` from index `i`: a left-to-right scan replacing each match, and
      resuming after it. */
  function ReplaceFrom(s: string, p: string, t: string, i: nat): string
    requires |p| > 0 && i <= |s|
    decreases |s| - i
  {
    if i == |s| then ""
    else if MatchAt(s, i, p) then t + ReplaceFrom(s, p, t, i + |p|)
    else [s[i]] + ReplaceFrom(s, p, t, i + 1)
  }

  function ReplaceAll(s: string, p: string, t: string): string
    requires |p| > 0
  {
    ReplaceFrom(s, p, t, 0)
  }

  /** A text where the pattern matches nowhere is left as it is. */
  lemma {:induction false} ReplaceFromNoMatch(s: string, p: string, t: string, i: nat)
    requires |p| > 0 && i <= |s|
    requires forall j | i <= j < |s| :: !MatchAt(s, j, p)
    ensures ReplaceFrom(s, p, t, i) == s[i..]
    decreases |s| - i
  {
    if i < |s| {
      ReplaceFromNoMatch(s, p, t, i + 1);
      assert s[i..] == [s[i]] + s[i + 1..];
    }
  }

  /** The text up to the first match is copied, the match is replaced, and the scan
      resumes after it. */
  lemma {:induction false} ReplaceFromSplits(s: string, p: string, t: string, i: nat, j: nat)
    requires |p| > 0 && i <= j && j + |p| <= |s|
    requires forall k | i <= k < j :: !MatchAt(s, k, p)
    requires MatchAt(s, j, p)
    ensures ReplaceFrom(s, p, t, i) == s[i..j] + (t + ReplaceFrom(s, p, t, j + |p|))
    decreases j - i
  {
    if i < j {
      ReplaceFromSplits(s, p, t, i + 1, j);
      ReplaceFromSkips(s, p, t, i);
      ConsSlice(s, i, j, t + ReplaceFrom(s, p, t, j + |p|));
    }
  }

  /** A position where the pattern does not match is copied. */
  lemma ReplaceFromSkips(s: string, p: string, t: string, i: nat)
    requires |p| > 0 && i < |s| && !MatchAt(s, i, p)
    ensures ReplaceFrom(s, p, t, i) == [s[i]] + ReplaceFrom(s, p, t, i + 1)
  {
  }

  lemma ConsSlice<T>(s: seq<T>, i: nat, j: nat, rest: seq<T>)
    requires i < j <= |s|
    ensures [s[i]] + (s[i + 1..j] + rest) == s[i..j] + rest
  {
    assert [s[i]] + s[i + 1..j] == s[i..j];
  }

  /** The substitutions in the order they are applied, longer phrases first so that
      "you" inside "you are" is not replaced on its own. */
  const Substitutions: seq<(string, string)> := [
    ("you were", "I was"),
    ("you are", "I am"),
    ("you're", "I am"),
    ("you've", "I have"),
    ("yours", "mine"),
    ("your", "my"),
    ("you", "I")]

  /** The substitutions applied one after the other. */
  function ApplySubstitutions(s: string, subs: seq<(string, string)>): string
    requires forall k | 0 <= k < |subs| :: |subs[k].0| > 0
    decreases |subs|
  {
    if subs == [] then s else ApplySubstitutions(ReplaceAll(s, subs[0].0, subs[0].1), subs[1..])
  }

  /** What `replacePronouns` returns. */
  function PronounsReplaced(s: string): string {
    ApplySubstitutions(s, Substitutions)
  }

  /** `replacePronouns`. */
  method ReplacePronouns(instruction: string) returns (r: string)
    ensures r == PronounsReplaced(instruction)
  {
    r := instruction;
    for i := 0 to |Substitutions|
      invariant ApplySubstitutions(r, Substitutions[i..]) == PronounsReplaced(instruction)
    {
      assert Substitutions[i..][1..] == Substitutions[i + 1..];
      r := ReplaceAll(r, Substitutions[i].0, Substitutions[i].1);
    }
  }

  /** An instruction that contains no pronoun, whole and in any case, is not changed. */
  lemma {:induction false} NoPronounUnchanged(s: string, subs: seq<(string, string)>)
    requires forall k | 0 <= k < |subs| :: |subs[k].0| > 0
    requires forall k, j | 0 <= k < |subs| && 0 <= j < |s| :: !MatchAt(s, j, subs[k].0)
    ensures ApplySubstitutions(s, subs) == s
    decreases |subs|
  {
    if subs != [] {
      ReplaceFromNoMatch(s, subs[0].0, subs[0].1, 0);
      assert forall k | 0 <= k < |subs[1..]| :: subs[1..][k] == subs[k + 1];
      NoPronounUnchanged(s, subs[1..]);
    }
  }

  /** "you" followed by a letter, as in "youth" or "yourself", is not a match. */
  lemma EmbeddedNotMatched(s: string, i: nat, p: string)
    requires i + |p| < |s| && IsWordChar(s[i + |p|])
    ensures !MatchAt(s, i, p)
  {
  }

  /** Matching ignores case: an upper-case letter in the text matches its lower-case
      letter in the pattern. */
  lemma MatchIgnoresCase(s: string, i: nat, p: string, k: nat, c: char)
    requires k < |s| && 'A' <= s[k] <= 'Z' && c == Lower(s[k])
    ensures MatchAt(s, i, p) <==> MatchAt(s[k := c], i, p)
  {
    var s' := s[k := c];
    assert forall m | 0 <= m < |s| :: Lower(s'[m]) == Lower(s[m]);
    assert forall m | 0 <= m < |s| :: IsWordChar(s'[m]) == IsWordChar(s[m]);
  }

  /** A pattern that matches at the start of a text and whose first letter does not
      occur again after it is replaced once, at the start. */
  lemma ReplaceLeading(s: string, p: string, t: string)
    requires |p| > 0 && MatchAt(s, 0, p)
    requires forall j | |p| <= j < |s| :: Lower(s[j]) != p[0]
    ensures ReplaceAll(s, p, t) == t + s[|p|..]
  {
    ReplaceFromSplits(s, p, t, 0, 0);
    ReplaceFromNoMatch(s, p, t, |p|);
  }

  /** A pattern whose first letter occurs only at the start of a text, where the
      pattern does not match, leaves the text unchanged. */
  lemma KeepMismatch(s: string, p: string, t: string)
    requires |p| > 0 && !MatchAt(s, 0, p)
    requires forall j | 1 <= j < |s| :: Lower(s[j]) != p[0]
    ensures ReplaceAll(s, p, t) == s
  {
    ReplaceFromNoMatch(s, p, t, 0);
  }

  /** Phrases that all start with a y leave a text without a y unchanged. */
  lemma NoYUnchanged(s: string, subs: seq<(string, string)>)
    requires forall k | 0 <= k < |subs| :: |subs[k].0| > 0 && subs[k].0[0] == 'y'
    requires forall j | 0 <= j < |s| :: Lower(s[j]) != 'y'
    ensures ApplySubstitutions(s, subs) == s
  {
    forall k, j | 0 <= k < |subs| && 0 <= j < |s| ensures !MatchAt(s, j, subs[k].0) {
      assert Lower(s[j + 0]) != subs[k].0[0];
    }
    NoPronounUnchanged(s, subs);
  }

  /** In "You are" followed by `rest`, only the first letter is a y, and the text starts
      with the words "you are" and "you" but not with "you were". */
  lemma YouAreLetters(rest: string)
    requires rest == [] || !IsWordChar(rest[0])
    requires forall j | 0 <= j < |rest| :: Lower(rest[j]) != 'y'
    ensures forall j | 1 <= j < |"You are" + rest| :: Lower(("You are" + rest)[j]) != 'y'
    ensures MatchAt("You are" + rest, 0, "you are") && MatchAt("You are" + rest, 0, "you")
    ensures !MatchAt("You are" + rest, 0, "you were")
  {
    var s := "You are" + rest;
    assert forall j | 7 <= j < |s| :: s[j] == rest[j - 7];
    assert Lower(s[4]) != "you were"[4];
  }

  /** "You are" followed by text without a y: "you were" matches nowhere, and "you are"
      and "you" each match only at the start. */
  lemma YouAreSteps(rest: string)
    requires rest == [] || !IsWordChar(rest[0])
    requires forall j | 0 <= j < |rest| :: Lower(rest[j]) != 'y'
    ensures ReplaceAll("You are" + rest, "you were", "I was") == "You are" + rest
    ensures ReplaceAll("You are" + rest, "you are", "I am") == "I am" + rest
    ensures ReplaceAll("You are" + rest, "you", "I") == "I are" + rest
  {
    var s := "You are" + rest;
    YouAreLetters(rest);
    KeepMismatch(s, "you were", "I was");
    ReplaceLeading(s, "you are", "I am");
    assert s[7..] == rest;
    ReplaceLeading(s, "you", "I");
    assert s[3..] == " are" + rest;
  }

  /** "You are …" becomes "I am …" when nothing after it is a pronoun. Replacing "you"
      first would have given "I are …", which is why the longer phrases come first. */
  lemma YouAreRewritten(rest: string)
    requires rest == [] || !IsWordChar(rest[0])
    requires forall j | 0 <= j < |rest| :: Lower(rest[j]) != 'y'
    ensures PronounsReplaced("You are" + rest) == "I am" + rest
    ensures ReplaceAll("You are" + rest, "you", "I") == "I are" + rest
  {
    YouAreSteps(rest);
    var s2 := "I am" + rest;
    assert forall j | 4 <= j < |s2| :: s2[j] == rest[j - 4];
    NoYUnchanged(s2, Substitutions[2..]);
    assert Substitutions[1..][1..] == Substitutions[2..];
  }

  /** The documented example: "You are" + " a helpful chatbot" becomes
      "I am" + " a helpful chatbot". */
  lemma YouAreExample(rest: string)
    requires rest == " a helpful chatbot"
    ensures PronounsReplaced("You are" + rest) == "I am" + rest
  {
    assert forall j | 0 <= j < |rest| :: Lower(rest[j]) != 'y';
    YouAreRewritten(rest);
  }

  // ---- workflow descriptions ----

  /** What a sub-agent does, in words: its description, or a phrase naming it. */
  function SubDescription(sub: Agent): string {
    if sub.description == "" then "execute the " + sub.name + " agent" else sub.description
  }

  /** The phrasing of a sequential agent ("First, …", "Then, …", "Finally, …") or of a
      parallel or loop agent ("This agent will …", ", …", "and …"). */
  datatype Phrasing = Sequence | Chain

  /** The phrase for sub-agent `i` of `n`; the first position wins when there is one. */
  function Phrase(style: Phrasing, i: nat, n: nat, d: string): string {
    match style
    case Sequence =>
      if i == 0 then "First, this agent will " + d + "."
      else if i == n - 1 then "Finally, this agent will " + d + "."
      else "Then, this agent will " + d + "."
    case Chain =>
      if i == 0 then "This agent will " + d
      else if i == n - 1 then "and " + d
      else ", " + d
  }

  /** The phrases of all sub-agents. */
  function Phrases(style: Phrasing, subs: seq<Agent>): (r: seq<string>)
    ensures |r| == |subs|
  {
    seq(|subs|, i requires 0 <= i < |subs| => Phrase(style, i, |subs|, SubDescription(subs[i])))
  }

  /** The loop filling `descriptions[i]` in each description builder. */
  method FillPhrases(style: Phrasing, subs: seq<Agent>) returns (descriptions: array<string>)
    ensures fresh(descriptions) && descriptions[..] == Phrases(style, subs)
  {
    descriptions := new string[|subs|];
    for i := 0 to |subs|
      invariant forall j | 0 <= j < i :: descriptions[j] == Phrase(style, j, |subs|, SubDescription(subs[j]))
    {
      descriptions[i] := Phrase(style, i, |subs|, SubDescription(subs[i]));
    }
  }

  /** `buildSequentialAgentDescription`. */
  function SequentialDescription(subs: seq<Agent>): string {
    Text.Join(Phrases(Sequence, subs), " ")
  }

  /** `buildParallelAgentDescription`. */
  function ParallelDescription(subs: seq<Agent>): string {
    Text.Join(Phrases(Chain, subs), " ") + " simultaneously."
  }

  /** The iteration bound as printed: a positive bound, else "unlimited". */
  function IterationLimit(maxIterations: int): string {
    if maxIterations > 0 then Text.IntToString(maxIterations) else "unlimited"
  }

  /** `buildLoopAgentDescription`: empty when the state holds no loop configuration. */
  function LoopDescription(a: Agent): string {
    if a.maxIterations.None? then ""
    else Text.Join(Phrases(Chain, a.subAgents), " ") + " in a loop (max " + IterationLimit(a.maxIterations.value) + " iterations)."
  }

  method BuildSequentialDescription(subs: seq<Agent>) returns (r: string)
    ensures r == SequentialDescription(subs)
  {
    var descriptions := FillPhrases(Sequence, subs);
    r := Text.Join(descriptions[..], " ");
  }

  method BuildParallelDescription(subs: seq<Agent>) returns (r: string)
    ensures r == ParallelDescription(subs)
  {
    var descriptions := FillPhrases(Chain, subs);
    r := Text.Join(descriptions[..], " ") + " simultaneously.";
  }

  method BuildLoopDescription(a: Agent) returns (r: string)
    ensures r == LoopDescription(a)
  {
    if a.maxIterations.None? {
      return "";
    }
    var descriptions := FillPhrases(Chain, a.subAgents);
    r := Text.Join(descriptions[..], " ") + " in a loop (max " + IterationLimit(a.maxIterations.value) + " iterations).";
  }

  /** One sub-agent: the first phrase closes the sentence. */
  lemma SequentialOne(a: Agent)
    ensures SequentialDescription([a]) == "First, this agent will " + SubDescription(a) + "."
    ensures ParallelDescription([a]) == ("This agent will " + SubDescription(a)) + " simultaneously."
  {
    assert Phrases(Sequence, [a]) == [Phrase(Sequence, 0, 1, SubDescription(a))];
    assert Phrases(Chain, [a]) == [Phrase(Chain, 0, 1, SubDescription(a))];
  }

  /** Two sub-agents: first and final steps, or an "and" between them. */
  lemma TwoSubAgents(a: Agent, b: Agent)
    ensures SequentialDescription([a, b]) ==
            ("First, this agent will " + SubDescription(a) + ".") + " " + ("Finally, this agent will " + SubDescription(b) + ".")
    ensures ParallelDescription([a, b]) ==
            ("This agent will " + SubDescription(a)) + " " + ("and " + SubDescription(b)) + " simultaneously."
  {
    var ps := Phrases(Sequence, [a, b]);
    assert ps == [Phrase(Sequence, 0, 2, SubDescription(a)), Phrase(Sequence, 1, 2, SubDescription(b))];
    assert ps[1..] == [ps[1]];
    var cs := Phrases(Chain, [a, b]);
    assert cs == [Phrase(Chain, 0, 2, SubDescription(a)), Phrase(Chain, 1, 2, SubDescription(b))];
    assert cs[1..] == [cs[1]];
  }

  /** Three sub-agents: a middle step; the middle phrase of a chain is joined with a
      space before its comma. */
  lemma ThreeSubAgents(a: Agent, b: Agent, c: Agent)
    ensures SequentialDescription([a, b, c]) ==
            ("First, this agent will " + SubDescription(a) + ".") + " " +
            (("Then, this agent will " + SubDescription(b) + ".") + " " + ("Finally, this agent will " + SubDescription(c) + "."))
    ensures ParallelDescription([a, b, c]) ==
            ("This agent will " + SubDescription(a)) + " " + ((", " + SubDescription(b)) + " " + ("and " + SubDescription(c))) +
            " simultaneously."
  {
    var ps := Phrases(Sequence, [a, b, c]);
    assert ps == [Phrase(Sequence, 0, 3, SubDescription(a)), Phrase(Sequence, 1, 3, SubDescription(b)),
                  Phrase(Sequence, 2, 3, SubDescription(c))];
    assert ps[1..] == [ps[1], ps[2]] && ps[1..][1..] == [ps[2]];
    assert Text.Join(ps[1..], " ") == ps[1] + " " + ps[2];
    var cs := Phrases(Chain, [a, b, c]);
    assert cs == [Phrase(Chain, 0, 3, SubDescription(a)), Phrase(Chain, 1, 3, SubDescription(b)),
                  Phrase(Chain, 2, 3, SubDescription(c))];
    assert cs[1..] == [cs[1], cs[2]] && cs[1..][1..] == [cs[2]];
    assert Text.Join(cs[1..], " ") == cs[1] + " " + cs[2];
  }

  // ---- the agent's own description ----

  /** The workflow sentence of an agent with sub-agents, by type. */
  function WorkflowParts(a: Agent): seq<string> {
    if |a.subAgents| == 0 then []
    else match a.agentType
      case LoopAgent => [LoopDescription(a)]
      case ParallelAgent => [ParallelDescription(a.subAgents)]
      case SequentialAgent => [SequentialDescription(a.subAgents)]
      case _ => []
  }

  /** The parts joined with spaces, or the type's default when there are none. */
  function JoinOrDefault(parts: seq<string>, t: AgentType): (r: string)
    ensures parts == [] ==> r == DefaultDescription(t)
    ensures parts != [] ==> r == Text.Join(parts, " ")
  {
    if |parts| > 0 then Text.Join(parts, " ") else DefaultDescription(t)
  }

  /** The agent's own description as a list of parts. */
  function OwnDescription(a: Agent): seq<string> {
    if a.description != "" then [a.description] else []
  }

  /** `buildAgentDescription`. */
  function AgentDescription(a: Agent): string {
    JoinOrDefault(OwnDescription(a) + WorkflowParts(a), a.agentType)
  }

  method BuildAgentDescription(a: Agent) returns (r: string)
    ensures r == AgentDescription(a)
  {
    var parts: seq<string> := [];
    if a.description != "" {
      parts := parts + [a.description];
    }
    if |a.subAgents| > 0 {
      match a.agentType {
        case LoopAgent =>
          var d := BuildLoopDescription(a);
          parts := parts + [d];
        case ParallelAgent =>
          var d := BuildParallelDescription(a.subAgents);
          parts := parts + [d];
        case SequentialAgent =>
          var d := BuildSequentialDescription(a.subAgents);
          parts := parts + [d];
        case _ =>
      }
    }
    r := JoinOrDefault(parts, a.agentType);
  }

  /** `buildDescriptionFromInstructions`: the description, then the instruction and the
      global instruction with their pronouns replaced, skipping empty ones. */
  function InstructionParts(a: Agent, st: LLMState): seq<string> {
    OwnDescription(a) +
    (if st.instruction != "" then [PronounsReplaced(st.instruction)] else []) +
    (if st.globalInstruction != "" then [PronounsReplaced(st.globalInstruction)] else [])
  }

  function DescriptionFromInstructions(a: Agent, st: LLMState): string {
    JoinOrDefault(InstructionParts(a, st), a.agentType)
  }

  method BuildDescriptionFromInstructions(a: Agent, st: LLMState) returns (r: string)
    ensures r == DescriptionFromInstructions(a, st)
  {
    var parts: seq<string> := [];
    if a.description != "" {
      parts := parts + [a.description];
    }
    assert parts == OwnDescription(a);
    ghost var own := parts;
    var instruction: seq<string> := [];
    if st.instruction != "" {
      var i := ReplacePronouns(st.instruction);
      instruction := [i];
    }
    var global: seq<string> := [];
    if st.globalInstruction != "" {
      var g := ReplacePronouns(st.globalInstruction);
      global := [g];
    }
    parts := parts + instruction + global;
    r := JoinOrDefault(parts, a.agentType);
  }

  /** An agent with neither a description nor instructions is described by its type. */
  lemma DescriptionFallsBack(a: Agent, st: LLMState)
    requires a.description == "" && st.instruction == "" && st.globalInstruction == ""
    ensures DescriptionFromInstructions(a, st) == DefaultDescription(a.agentType)
    ensures |a.subAgents| == 0 ==> AgentDescription(a) == DefaultDescription(a.agentType)
  {
  }

  // ---- skills ----

  /** The skill of one tool of an LLM agent. */
  function ToolSkill(agentName: string, tool: Tool): AgentSkill {
    AgentSkill(agentName + "-" + tool.name, tool.name,
               if tool.description == "" then "Tool: " + tool.name else tool.description,
               ["llm", "tools"])
  }

  /** `buildLLMAgentSkills`: the model skill, then one skill per tool, in order. */
  function LLMAgentSkills(a: Agent, st: LLMState): (r: seq<AgentSkill>)
    ensures |r| == 1 + |st.tools|
  {
    [AgentSkill(a.name, "model", DescriptionFromInstructions(a, st), ["llm"])] +
    seq(|st.tools|, i requires 0 <= i < |st.tools| => ToolSkill(a.name, st.tools[i]))
  }

  method BuildLLMAgentSkills(a: Agent, st: LLMState) returns (skills: seq<AgentSkill>)
    ensures skills == LLMAgentSkills(a, st)
  {
    var d := BuildDescriptionFromInstructions(a, st);
    skills := [AgentSkill(a.name, "model", d, ["llm"])];
    for i := 0 to |st.tools|
      invariant |skills| == 1 + i && skills[0] == AgentSkill(a.name, "model", d, ["llm"])
      invariant forall j | 0 <= j < i :: skills[1 + j] == ToolSkill(a.name, st.tools[j])
    {
      var description := st.tools[i].description;
      if description == "" {
        description := "Tool: " + st.tools[i].name;
      }
      skills := skills + [AgentSkill(a.name + "-" + st.tools[i].name, st.tools[i].name, description, ["llm", "tools"])];
    }
  }

  /** A sub-agent's description for the orchestration skill. */
  function Orchestrated(sub: Agent): string {
    if sub.description != "" then sub.description else "No description"
  }

  /** The orchestration skill of a non-LLM agent with sub-agents. */
  function OrchestrationSkill(a: Agent): AgentSkill {
    AgentSkill(a.name + "-sub-agents", "sub-agents",
               "Orchestrates: " + Text.Join(seq(|a.subAgents|, i requires 0 <= i < |a.subAgents| => Orchestrated(a.subAgents[i])), "; "),
               [TypeTag(a.agentType), "orchestration"])
  }

  /** `buildNonLLMAgentSkills`: the agent's skill, then the orchestration skill exactly
      when it has sub-agents. */
  function NonLLMAgentSkills(a: Agent): (r: seq<AgentSkill>)
    ensures |r| == if |a.subAgents| == 0 then 1 else 2
  {
    [AgentSkill(a.name, SkillName(a.agentType), AgentDescription(a), [TypeTag(a.agentType)])] +
    if |a.subAgents| == 0 then [] else [OrchestrationSkill(a)]
  }

  method BuildNonLLMAgentSkills(a: Agent) returns (skills: seq<AgentSkill>)
    ensures skills == NonLLMAgentSkills(a)
  {
    var d := BuildAgentDescription(a);
    skills := [AgentSkill(a.name, SkillName(a.agentType), d, [TypeTag(a.agentType)])];
    if |a.subAgents| > 0 {
      var descriptions := new string[|a.subAgents|];
      for i := 0 to |a.subAgents|
        invariant forall j | 0 <= j < i :: descriptions[j] == Orchestrated(a.subAgents[j])
      {
        if a.subAgents[i].description != "" {
          descriptions[i] := a.subAgents[i].description;
        } else {
          descriptions[i] := "No description";
        }
      }
      assert descriptions[..] == seq(|a.subAgents|, i requires 0 <= i < |a.subAgents| => Orchestrated(a.subAgents[i]));
      skills := skills + [AgentSkill(a.name + "-sub-agents", "sub-agents", "Orchestrates: " + Text.Join(descriptions[..], "; "),
                                     [TypeTag(a.agentType), "orchestration"])];
    }
  }

  /** `buildPrimarySkills`. */
  function PrimarySkills(a: Agent): seq<AgentSkill> {
    if a.llm.Some? then LLMAgentSkills(a, a.llm.value) else NonLLMAgentSkills(a)
  }

  method BuildPrimarySkills(a: Agent) returns (skills: seq<AgentSkill>)
    ensures skills == PrimarySkills(a)
  {
    if a.llm.Some? {
      skills := BuildLLMAgentSkills(a, a.llm.value);
    } else {
      skills := BuildNonLLMAgentSkills(a);
    }
  }

  /** A sub-agent's skill, renamed after the sub-agent and tagged with it. */
  function SubSkill(sub: Agent, skill: AgentSkill): AgentSkill {
    AgentSkill(sub.name + "_" + skill.id, sub.name + ": " + skill.name, skill.description,
               ["sub_agent:" + sub.name] + skill.tags)
  }

  function SubSkills(sub: Agent, skills: seq<AgentSkill>): (r: seq<AgentSkill>)
    ensures |r| == |skills|
  {
    seq(|skills|, j requires 0 <= j < |skills| => SubSkill(sub, skills[j]))
  }

  /** `buildSubAgentSkills`: the primary skills of each direct sub-agent, in order. */
  function SubAgentSkills(subs: seq<Agent>): seq<AgentSkill> {
    if subs == [] then []
    else SubAgentSkills(subs[..|subs| - 1]) + SubSkills(subs[|subs| - 1], PrimarySkills(subs[|subs| - 1]))
  }

  method BuildSubAgentSkills(subs: seq<Agent>) returns (result: seq<AgentSkill>)
    ensures result == SubAgentSkills(subs)
  {
    result := [];
    for i := 0 to |subs|
      invariant result == SubAgentSkills(subs[..i])
    {
      var skills := BuildPrimarySkills(subs[i]);
      result := AppendSubSkills(result, subs[i], skills);
      assert subs[..i + 1][..i] == subs[..i];
    }
    assert subs[..|subs|] == subs;
  }

  /** The inner loop of `buildSubAgentSkills`: one sub-agent's skills, renamed, appended. */
  method AppendSubSkills(result: seq<AgentSkill>, sub: Agent, skills: seq<AgentSkill>) returns (r: seq<AgentSkill>)
    ensures r == result + SubSkills(sub, skills)
  {
    r := result;
    for j := 0 to |skills|
      invariant r == result + SubSkills(sub, skills[..j])
    {
      assert SubSkills(sub, skills[..j + 1]) == SubSkills(sub, skills[..j]) + [SubSkill(sub, skills[j])];
      r := r + [SubSkill(sub, skills[j])];
    }
    assert skills[..|skills|] == skills;
  }

  /** `BuildAgentSkills`. */
  function AgentSkills(a: Agent): seq<AgentSkill> {
    PrimarySkills(a) + SubAgentSkills(a.subAgents)
  }

  method BuildAgentSkills(a: Agent) returns (skills: seq<AgentSkill>)
    ensures skills == AgentSkills(a)
  {
    var primary := BuildPrimarySkills(a);
    var sub := BuildSubAgentSkills(a.subAgents);
    skills := primary + sub;
  }

  // ---- properties ----

  /** The first skill is the agent's own, under its name; an LLM agent adds one skill per
      tool and a non-LLM agent one orchestration skill exactly when it has sub-agents. */
  lemma PrimarySkillsShape(a: Agent)
    ensures |PrimarySkills(a)| > 0 && PrimarySkills(a)[0].id == a.name
    ensures a.llm.Some? ==> |PrimarySkills(a)| == 1 + |a.llm.value.tools| &&
                            PrimarySkills(a)[0].name == "model" && PrimarySkills(a)[0].tags == ["llm"]
    ensures a.llm.None? ==> PrimarySkills(a)[0].name == SkillName(a.agentType) &&
                            PrimarySkills(a)[0].tags == [TypeTag(a.agentType)]
    ensures a.llm.None? ==>
              ((exists k | 0 <= k < |PrimarySkills(a)| :: PrimarySkills(a)[k].name == "sub-agents") <==> |a.subAgents| > 0)
  {
    if a.llm.None? && |a.subAgents| > 0 {
      assert PrimarySkills(a)[1].name == "sub-agents";
    }
  }

  /** A tool without a description is described by its name. */
  lemma ToolSkillDescription(a: Agent, st: LLMState, i: nat)
    requires i < |st.tools|
    ensures LLMAgentSkills(a, st)[1 + i].id == a.name + "-" + st.tools[i].name
    ensures LLMAgentSkills(a, st)[1 + i].description ==
            if st.tools[i].description == "" then "Tool: " + st.tools[i].name else st.tools[i].description
  {
  }

  /** Skill `s` is primary skill `j` of sub-agent `i`, renamed and tagged first with
      that sub-agent. */
  predicate FromSubAgent(subs: seq<Agent>, s: AgentSkill) {
    exists i, j | 0 <= i < |subs| && 0 <= j < |PrimarySkills(subs[i])| ::
      && s == SubSkill(subs[i], PrimarySkills(subs[i])[j])
      && s.tags[0] == "sub_agent:" + subs[i].name
  }

  /** A skill from one of the first sub-agents is one from all of them. */
  lemma FromSubAgentPrefix(subs: seq<Agent>, n: nat, s: AgentSkill)
    requires n <= |subs| && FromSubAgent(subs[..n], s)
    ensures FromSubAgent(subs, s)
  {
    var init := subs[..n];
    var i, j :| 0 <= i < |init| && 0 <= j < |PrimarySkills(init[i])| && s == SubSkill(init[i], PrimarySkills(init[i])[j]);
    assert init[i] == subs[i];
  }

  /** Every skill of the direct sub-agents is a primary skill of one of them, renamed and
      tagged first with the sub-agent it comes from. */
  lemma {:induction false} SubAgentSkillsMeaning(subs: seq<Agent>)
    ensures forall k | 0 <= k < |SubAgentSkills(subs)| :: FromSubAgent(subs, SubAgentSkills(subs)[k])
  {
    if subs != [] {
      var n := |subs| - 1;
      var last := subs[n];
      SubAgentSkillsMeaning(subs[..n]);
      var a := SubAgentSkills(subs[..n]);
      var b := SubSkills(last, PrimarySkills(last));
      assert SubAgentSkills(subs) == a + b;
      forall k | 0 <= k < |a| + |b|
        ensures FromSubAgent(subs, (a + b)[k])
      {
        if k < |a| {
          FromSubAgentPrefix(subs, n, a[k]);
        } else {
          var j := k - |a|;
          assert (a + b)[k] == b[j] == SubSkill(subs[n], PrimarySkills(subs[n])[j]);
        }
      }
    }
  }

  /** Conversely, every primary skill of every direct sub-agent is listed, renamed after it. */
  lemma {:induction false} SubAgentSkillsComplete(subs: seq<Agent>, i: nat, j: nat)
    requires i < |subs| && j < |PrimarySkills(subs[i])|
    ensures SubSkill(subs[i], PrimarySkills(subs[i])[j]) in SubAgentSkills(subs)
  {
    var n := |subs| - 1;
    SubAgentSkillsSnoc(subs);
    var a, b := SubAgentSkills(subs[..n]), SubSkills(subs[n], PrimarySkills(subs[n]));
    if i < n {
      assert SubSkill(subs[i], PrimarySkills(subs[i])[j]) in a by {
        assert subs[..n][i] == subs[i];
        SubAgentSkillsComplete(subs[..n], i, j);
      }
      InLeft(SubSkill(subs[i], PrimarySkills(subs[i])[j]), a, b);
    } else {
      assert i == n;
      SubSkillsAt(subs[n], PrimarySkills(subs[n]), j);
      InRight(a, b, j);
    }
  }

  lemma SubAgentSkillsSnoc(subs: seq<Agent>)
    requires subs != []
    ensures SubAgentSkills(subs) == SubAgentSkills(subs[..|subs| - 1]) + SubSkills(subs[|subs| - 1], PrimarySkills(subs[|subs| - 1]))
  {
  }

  lemma SubSkillsAt(sub: Agent, skills: seq<AgentSkill>, j: nat)
    requires j < |skills|
    ensures SubSkills(sub, skills)[j] == SubSkill(sub, skills[j])
  {
  }

  lemma InLeft<T>(x: T, a: seq<T>, b: seq<T>)
    requires x in a
    ensures x in a + b
  {
  }

  lemma InRight<T>(a: seq<T>, b: seq<T>, j: nat)
    requires j < |b|
    ensures b[j] in a + b
  {
    assert (a + b)[|a| + j] == b[j];
  }

  /** The card's skills start with the agent's own skills, followed by its sub-agents'. */
  lemma AgentSkillsSplit(a: Agent)
    ensures AgentSkills(a)[..|PrimarySkills(a)|] == PrimarySkills(a)
    ensures AgentSkills(a)[|PrimarySkills(a)|..] == SubAgentSkills(a.subAgents)
  {
  }
}
