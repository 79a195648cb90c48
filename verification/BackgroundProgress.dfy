/**
  The status of the subagents of one turn: bounded tables of agents, tool calls and pending tasks, and their rendering.
 */
module BackgroundProgress {
  import opened Wrappers
  import opened OrderedMap
  import TurnProgress

  const MAX_BACKGROUND_AGENTS := 16
  const MAX_BACKGROUND_TOOL_IDS := 256
  const MAX_BACKGROUND_TASK_IDS := 16
  const MARKER: Text := "… more agents"
  /** The two code units of the sign for a running agent, U+1F465. */
  const RUNNING_SIGN: Text := "\U{F83D}\U{F465}"

  type AgentId = nat
  type ToolId = nat
  type Text = TurnProgress.Text

  datatype Ending = Completed | Broke | Killed
  datatype Status = Running | Done | Failed | Stopped
  datatype LastTool = LastTool(id: ToolId, step: TurnProgress.ProgressStep, status: Status)
  datatype Agent = Agent(kind: Text, status: Status, last: Option<LastTool>)

  datatype Event =
    | TaskStart(tool: ToolId)
    | TaskTerminal(tool: ToolId)
    | Start(agent: AgentId, kind: Text)
    | Tool(agent: AgentId, tool: ToolId, step: TurnProgress.ProgressStep)
    | Success(tool: ToolId)
    | Failure(tool: ToolId)
    | AgentTerminal(agent: AgentId, ending: Ending)

  function StatusOf(e: Ending): Status { match e case Completed => Done case Broke => Failed case Killed => Stopped }

  /** A tool still shown as running belongs to an agent still running. */
  predicate AgentOk(a: Agent) { a.last.Some? && a.last.value.status == Running ==> a.status == Running }

  /** No agent is forgotten, and one that has ended stays as it ended. */
  ghost predicate Advances(before: map<AgentId, Agent>, after: map<AgentId, Agent>) {
    forall k :: k in before ==> k in after && (before[k].status != Running ==> after[k] == before[k])
  }

  // ----- rendering -----

  function RenderStep(s: TurnProgress.ProgressStep, status: Status): Text {
    var prefix := if status == Failed then "❌ " else if status == Stopped then "⏹ " else "";
    var head := prefix + s.emoji + " " + s.name;
    if s.preview == "" || s.command then head else head + s.connector + s.preview
  }

  /** One agent's line, with its last step on a line of its own. */
  function Block(a: Agent): Text {
    var line := match a.status
      case Done => "✅ " + a.kind + " · Done"
      case Failed => "❌ " + a.kind + " · Failed"
      case Stopped => "⏹ " + a.kind + " · Stopped"
      case Running => RUNNING_SIGN + " " + a.kind + " · Running";
    if a.last == None then line else line + "\n" + "└ " + RenderStep(a.last.value.step, a.last.value.status)
  }

  function Blocks(agents: OrdMap<AgentId, Agent>, n: nat): seq<Text>
    requires n <= |agents.keys| && forall k :: k in agents.keys ==> k in agents.at
  {
    seq(n, i requires 0 <= i < n => Block(agents.at[agents.keys[i]]))
  }

  class Background {
    var agents: OrdMap<AgentId, Agent>
    var toolAgents: OrdMap<ToolId, AgentId>
    var pendingTasks: set<ToolId>
    var generation: nat

    ghost predicate Valid()
      reads this
    {
      && agents.Valid() && toolAgents.Valid()
      && |agents.keys| <= MAX_BACKGROUND_AGENTS && |toolAgents.keys| <= MAX_BACKGROUND_TOOL_IDS
      && |pendingTasks| <= MAX_BACKGROUND_TASK_IDS
      && (forall k :: k in agents.at ==> AgentOk(agents.at[k]))
      && (forall t :: t in toolAgents.at ==> toolAgents.at[t] in agents.at)
    }

    ghost function Now(): State
      reads this
    {
      State(agents, toolAgents, pendingTasks, generation)
    }

    constructor ()
      ensures Valid() && Now() == Nothing()
    {
      agents, toolAgents, pendingTasks, generation := Empty(), Empty(), {}, 0;
    }

    method RecordTaskStart(tool: ToolId) returns (accepted: bool)
      requires Valid()
      modifies this`pendingTasks, this`generation
      ensures Valid() && accepted == (tool !in old(pendingTasks) && |old(pendingTasks)| < MAX_BACKGROUND_TASK_IDS)
      ensures pendingTasks == if accepted then old(pendingTasks) + {tool} else old(pendingTasks)
      ensures generation == old(generation) + if accepted then 1 else 0
    {
      if tool in pendingTasks || |pendingTasks| >= MAX_BACKGROUND_TASK_IDS { return false; }
      pendingTasks, generation := pendingTasks + {tool}, generation + 1;
      return true;
    }

    method RecordTaskTerminal(tool: ToolId) returns (accepted: bool)
      requires Valid()
      modifies this`pendingTasks, this`generation
      ensures Valid() && accepted == (tool in old(pendingTasks)) && pendingTasks == old(pendingTasks) - {tool}
      ensures generation == old(generation) + if accepted then 1 else 0
    {
      if tool !in pendingTasks { return false; }
      pendingTasks, generation := pendingTasks - {tool}, generation + 1;
      return true;
    }

    method RecordStart(agent: AgentId, kind: Text) returns (accepted: bool)
      requires Valid()
      modifies this`agents, this`generation
      ensures Valid() && accepted == (agent !in old(agents).at && |old(agents).keys| < MAX_BACKGROUND_AGENTS)
      ensures agents == if accepted then old(agents).Put(agent, Agent(kind, Running, None)) else old(agents)
      ensures generation == old(generation) + if accepted then 1 else 0
    {
      if agent in agents.at || |agents.keys| >= MAX_BACKGROUND_AGENTS { return false; }
      PutValid(agents, agent, Agent(kind, Running, None));
      agents := agents.Put(agent, Agent(kind, Running, None));
      generation := generation + 1;
      return true;
    }

    /** The oldest known calls make room for one more. */
    method ForgetOldTools()
      requires toolAgents.Valid()
      modifies this`toolAgents
      ensures toolAgents.Valid() && toolAgents.keys == Newest(old(toolAgents).keys, MAX_BACKGROUND_TOOL_IDS - 1)
      ensures forall t :: t in toolAgents.at ==> t in old(toolAgents).at && toolAgents.at[t] == old(toolAgents).at[t]
      ensures toolAgents == Recent(old(toolAgents))
    {
      hide Distinct, Drop, Only;
      ghost var known, n := toolAgents.keys, 0;
      while |toolAgents.keys| >= MAX_BACKGROUND_TOOL_IDS
        invariant toolAgents.Valid() && n <= |known| && toolAgents.keys == known[n..]
        invariant n == 0 || |known| - n >= MAX_BACKGROUND_TOOL_IDS - 1
        invariant forall t :: t in toolAgents.at ==>
                    t in old(toolAgents).at && toolAgents.at[t] == old(toolAgents).at[t]
        decreases |toolAgents.keys|
      {
        var oldest := toolAgents.keys[0];
        assert oldest in toolAgents.keys && known[n..][1..] == known[n + 1..];
        DeleteValid(toolAgents, oldest);
        DropAt(toolAgents.keys, 0);
        toolAgents, n := toolAgents.Delete(oldest), n + 1;
      }
      RecentIs(old(toolAgents), toolAgents);
    }

    /** A new call of a running agent; the oldest known calls make room for it. */
    method RecordTool(agent: AgentId, tool: ToolId, step: TurnProgress.ProgressStep) returns (accepted: bool)
      requires Valid()
      modifies this`agents, this`toolAgents, this`generation
      ensures Valid()
      ensures accepted ==
                (agent in old(agents).at && old(agents).at[agent].status == Running && tool !in old(toolAgents).at)
      ensures agents == if accepted
                then old(agents).Put(agent, old(agents).at[agent].(last := Some(LastTool(tool, step, Running))))
                    else old(agents)
      ensures toolAgents.keys == if accepted then Newest(old(toolAgents).keys, MAX_BACKGROUND_TOOL_IDS - 1) + [tool]
                else old(toolAgents).keys
      ensures accepted ==> tool in toolAgents.at && toolAgents.at[tool] == agent
      ensures toolAgents == if accepted then Recent(old(toolAgents)).Put(tool, agent) else old(toolAgents)
      ensures generation == old(generation) + if accepted then 1 else 0
    {
      if agent !in agents.at || agents.at[agent].status != Running || tool in toolAgents.at { return false; }
      ForgetOldTools();
      PutValid(toolAgents, tool, agent);
      toolAgents := toolAgents.Put(tool, agent);
      PutValid(agents, agent, agents.at[agent].(last := Some(LastTool(tool, step, Running))));
      agents := agents.Put(agent, agents.at[agent].(last := Some(LastTool(tool, step, Running))));
      generation := generation + 1;
      return true;
    }

    /** recordSuccess and recordFailure: only an agent's latest call still shows its outcome. */
    method RecordToolStatus(tool: ToolId, status: Status) returns (accepted: bool)
      requires Valid() && status != Running
      modifies this`agents, this`generation
      ensures Valid() && Advances(old(agents).at, agents.at) && agents.keys == old(agents).keys
      ensures accepted == (tool in toolAgents.at && ShowsRunning(old(agents).at[toolAgents.at[tool]], tool))
      ensures !accepted ==> agents == old(agents)
      ensures accepted ==>
                agents == old(agents).Put(toolAgents.at[tool], Settled(old(agents).at[toolAgents.at[tool]], status))
      ensures generation == old(generation) + if accepted then 1 else 0
    {
      if tool !in toolAgents.at { return false; }
      var k := toolAgents.at[tool];
      var a := agents.at[k];
      if !ShowsRunning(a, tool) { return false; }
      PutValid(agents, k, Settled(a, status));
      agents := agents.Put(k, Settled(a, status));
      generation := generation + 1;
      return true;
    }

    method RecordAgentTerminal(agent: AgentId, ending: Ending) returns (accepted: bool)
      requires Valid()
      modifies this`agents, this`generation
      ensures Valid() && Advances(old(agents).at, agents.at) && agents.keys == old(agents).keys
      ensures accepted == (agent in old(agents).at && old(agents).at[agent].status == Running)
      ensures agents == if accepted then old(agents).Put(agent, Ended(old(agents).at[agent], StatusOf(ending)))
                else old(agents)
      ensures generation == old(generation) + if accepted then 1 else 0
    {
      if agent !in agents.at || agents.at[agent].status != Running { return false; }
      PutValid(agents, agent, Ended(agents.at[agent], StatusOf(ending)));
      agents := agents.Put(agent, Ended(agents.at[agent], StatusOf(ending)));
      generation := generation + 1;
      return true;
    }

    /** The agents still at work. */
    function Active(): set<AgentId>
      reads this
    {
      set k | k in agents.at && agents.at[k].status == Running
    }

    function Header(): Text
      reads this
    {
      var running := Active();
      if running != {} then "Background work · " + TurnProgress.Digits(|running|) + " running…"
      else if pendingTasks != {} then "Background work · Finalizing…"
      else if exists k :: k in agents.at && agents.at[k].status == Failed then "Background work · Failed"
      else if exists k :: k in agents.at && agents.at[k].status == Stopped then "Background work · Stopped"
      else "Background work · Done"
    }

    ghost predicate Has(status: Status)
      reads this
    {
      exists k :: k in agents.at && agents.at[k].status == status
    }

    /** The first line tells whether agents run, tasks are waited for, or how the work has ended. */
    lemma HeaderTells()
      ensures IsRunning(Header()) <==> Has(Running)
      ensures Header() == "Background work · Finalizing…" <==> !Has(Running) && pendingTasks != {}
      ensures Header() == "Background work · Failed" <==> !Has(Running) && pendingTasks == {} && Has(Failed)
      ensures Header() == "Background work · Stopped" <==>
                !Has(Running) && pendingTasks == {} && !Has(Failed) && Has(Stopped)
      ensures Header() == "Background work · Done" <==>
                !Has(Running) && pendingTasks == {} && !Has(Failed) && !Has(Stopped)
    {
      hide IsRunning, TurnProgress.Digits;
      OthersEnd();
      if Has(Running) {
        var k :| k in agents.at && agents.at[k].status == Running;
        assert k in Active();
        RunningEnds(TurnProgress.Digits(|Active()|));
      } else {
        assert Active() == {};
      }
    }

    /** The first line is far within the limit. */
    lemma HeaderFits()
      requires Valid()
      ensures |Header()| <= 30
    {
      AtMost(Active(), agents.keys);
      assert TurnProgress.Power10(1) == 10 && TurnProgress.Power10(2) == 100;
      TurnProgress.DigitsBound(|Active()|, 2);
    }

    /**
      The marker for further agents is added after the length check: a text exceeds the limit, by no
      more than the marker and its line break, exactly if it was cut and what it shows leaves no room
      for them.
     */
    method Render() returns (text: Text, ghost shown: nat)
      requires Valid()
      ensures agents.keys == [] ==> text == ""
      ensures agents.keys != [] ==>
                && shown <= |agents.keys|
                && text == TurnProgress.Joined(Header(), Blocks(agents, shown))
                    + (if shown < |agents.keys| then "\n" + MARKER else "")
                && (shown == 0 ||
                      |TurnProgress.Joined(Header(), Blocks(agents, shown))| <= TurnProgress.MAX_PROGRESS_CHARACTERS)
                && (shown < |agents.keys| ==>
                      |TurnProgress.Joined(Header(), Blocks(agents, shown + 1))| > TurnProgress.MAX_PROGRESS_CHARACTERS)
      ensures |text| > TurnProgress.MAX_PROGRESS_CHARACTERS <==>
                shown < |agents.keys| &&
                    |TurnProgress.Joined(Header(), Blocks(agents, shown))| + 14 > TurnProgress.MAX_PROGRESS_CHARACTERS
      ensures |text| <= TurnProgress.MAX_PROGRESS_CHARACTERS + 14
    {
      hide Block, TurnProgress.Joined, Header, Blocks;
      HeaderFits();
      if agents.keys == [] { return "", 0; }
      var lines := Header();
      var k := 0;
      JoinedNothing(Header(), agents);
      while k < |agents.keys|
        invariant k <= |agents.keys| && lines == TurnProgress.Joined(Header(), Blocks(agents, k))
        invariant |lines| <= TurnProgress.MAX_PROGRESS_CHARACTERS
      {
        var additions := Block(agents.at[agents.keys[k]]);
        JoinedNext(Header(), agents, k);
        if |lines + "\n" + additions| > TurnProgress.MAX_PROGRESS_CHARACTERS {
          return lines + ("\n" + MARKER), k;
        }
        lines, k := lines + "\n" + additions, k + 1;
      }
      return lines + "", k;
    }
  }

  predicate IsRunning(header: Text) { |header| >= 9 && header[|header| - 9..] == " running…" }

  lemma RunningEnds(count: Text)
    ensures IsRunning("Background work · " + count + " running…")
  {
    var header := "Background work · " + count + " running…";
    assert header[|header| - 9..] == " running…";
  }

  lemma OthersEnd()
    ensures !IsRunning("Background work · Finalizing…") && !IsRunning("Background work · Failed")
    ensures !IsRunning("Background work · Stopped") && !IsRunning("Background work · Done")
  {
    assert "Background work · Finalizing…"[|"Background work · Finalizing…"| - 9] != ' ';
    assert "Background work · Failed"[|"Background work · Failed"| - 1] != '…';
    assert "Background work · Stopped"[|"Background work · Stopped"| - 1] != '…';
    assert "Background work · Done"[|"Background work · Done"| - 1] != '…';
  }

  /** The sign in front of an agent's line and that of its last step tell their statuses; a command is not shown. */
  lemma BlockTells(a: Agent)
    ensures Block(a)[0] == match a.status case Done => '✅' case Failed => '❌' case Stopped => '⏹' case Running =>
              RUNNING_SIGN[0]
    ensures a.last.Some? ==>
              var last := a.last.value;
              var shown := RenderStep(last.step, last.status);
              && |shown| < |Block(a)| && Block(a)[|Block(a)| - |shown|..] == shown
              && (last.status == Failed ==> shown[0] == '❌') && (last.status == Stopped ==> shown[0] == '⏹')
              && (last.status !in {Failed, Stopped} && last.step.emoji != "" ==> shown[0] == last.step.emoji[0])
              && (last.step.command ==> RenderStep(last.step.(preview := ""), last.status) == shown)
              && (!last.step.command && last.step.preview != "" ==>
                    RenderStep(last.step.(preview := ""), last.status) + last.step.connector + last.step.preview ==
                        shown)
  {
  }

  predicate ShowsRunning(a: Agent, tool: ToolId) {
    a.last.Some? && a.last.value.id == tool && a.last.value.status == Running
  }

  function Settled(a: Agent, status: Status): Agent
    requires a.last.Some?
  {
    a.(last := Some(a.last.value.(status := status)))
  }

  /** The end of an agent ends the call it was in. */
  function Ended(a: Agent, status: Status): Agent {
    Agent(a.kind, status, if a.last.Some? && a.last.value.status == Running then Some(a.last.value.(status := status))
        else a.last)
  }

  lemma {:induction false} AtMost<K>(s: set<K>, keys: seq<K>)
    requires forall x :: x in s ==> x in keys
    ensures |s| <= |keys|
  {
    if keys != [] {
      AtMost(s - {keys[0]}, keys[1..]);
      assert |s| <= |s - {keys[0]}| + 1;
    }
  }

  lemma JoinedNothing(header: Text, agents: OrdMap<AgentId, Agent>)
    requires forall k :: k in agents.keys ==> k in agents.at
    ensures TurnProgress.Joined(header, Blocks(agents, 0)) == header
  {
    assert Blocks(agents, 0) == [];
  }

  lemma JoinedNext(header: Text, agents: OrdMap<AgentId, Agent>, k: nat)
    requires k < |agents.keys| && forall a :: a in agents.keys ==> a in agents.at
    ensures TurnProgress.Joined(header, Blocks(agents, k + 1)) ==
            TurnProgress.Joined(header, Blocks(agents, k)) + "\n" + Block(agents.at[agents.keys[k]])
  {
    assert Blocks(agents, k + 1) == Blocks(agents, k) + [Block(agents.at[agents.keys[k]])];
    TurnProgress.JoinedLast(header, Blocks(agents, k), Block(agents.at[agents.keys[k]]));
  }

  // ----- what each event does -----

  datatype State = State(
    agents: OrdMap<AgentId, Agent>, calls: OrdMap<ToolId, AgentId>, pending: set<ToolId>, generation: nat)

  function Nothing(): State { State(Empty(), Empty(), {}, 0) }

  /** The newest known calls, with room for one more. */
  function Recent(calls: OrdMap<ToolId, AgentId>): OrdMap<ToolId, AgentId> {
    Only(calls, Elements(Newest(calls.keys, MAX_BACKGROUND_TOOL_IDS - 1)))
  }

  lemma RecentIs(was: OrdMap<ToolId, AgentId>, calls: OrdMap<ToolId, AgentId>)
    requires was.Valid() && calls.Valid() && calls.keys == Newest(was.keys, MAX_BACKGROUND_TOOL_IDS - 1)
    requires forall t :: t in calls.at ==> t in was.at && calls.at[t] == was.at[t]
    ensures calls == Recent(was)
  {
    FilterAll(was.keys, In(was.at.Keys));
    FilterNewest(was.keys, In(was.at.Keys), MAX_BACKGROUND_TOOL_IDS - 1);
    hide Filter, Newest, Elements, Distinct;
    OnlyIs(was, calls, Elements(Newest(was.keys, MAX_BACKGROUND_TOOL_IDS - 1)));
  }

  /** An accepted event advances the generation; any other changes nothing. */
  function Next(s: State, e: Event): State {
    var next := Effect(s, e);
    if next.Some? then next.value.(generation := s.generation + 1) else s
  }

  function Effect(s: State, e: Event): Option<State> {
    match e
    case TaskStart(tool) =>
      if tool !in s.pending && |s.pending| < MAX_BACKGROUND_TASK_IDS
      then Some(s.(pending := s.pending + {tool})) else None
    case TaskTerminal(tool) => if tool in s.pending then Some(s.(pending := s.pending - {tool})) else None
    case Start(agent, kind) =>
      if agent !in s.agents.at && |s.agents.keys| < MAX_BACKGROUND_AGENTS
      then Some(s.(agents := s.agents.Put(agent, Agent(kind, Running, None)))) else None
    case Tool(agent, tool, step) =>
      if agent in s.agents.at && s.agents.at[agent].status == Running && tool !in s.calls.at
      then
        var a := s.agents.at[agent].(last := Some(LastTool(tool, step, Running)));
        Some(s.(agents := s.agents.Put(agent, a), calls := Recent(s.calls).Put(tool, agent)))
      else None
    case Success(tool) => SettledCall(s, tool, Done)
    case Failure(tool) => SettledCall(s, tool, Failed)
    case AgentTerminal(agent, ending) =>
      if agent in s.agents.at && s.agents.at[agent].status == Running
      then Some(s.(agents := s.agents.Put(agent, Ended(s.agents.at[agent], StatusOf(ending))))) else None
  }

  function SettledCall(s: State, tool: ToolId, status: Status): Option<State> {
    if tool in s.calls.at && s.calls.at[tool] in s.agents.at && ShowsRunning(s.agents.at[s.calls.at[tool]], tool) then
      var agent := s.calls.at[tool];
      Some(s.(agents := s.agents.Put(agent, Settled(s.agents.at[agent], status))))
    else None
  }

  ghost predicate StepAt(events: seq<Event>, trail: seq<State>, i: nat)
    requires i < |events| && i + 1 < |trail|
  {
    trail[i + 1] == Next(trail[i], events[i]) && Advances(trail[i].agents.at, trail[i + 1].agents.at)
  }

  /** The events lead along the trail, and an agent that has ended never changes again. */
  ghost predicate Follows(events: seq<Event>, trail: seq<State>) {
    && 0 < |trail| <= |events| + 1 && trail[0] == Nothing()
    && forall i :: 0 <= i < |trail| - 1 ==> StepAt(events, trail, i)
  }

  lemma FollowsOn(events: seq<Event>, trail: seq<State>, s: State)
    requires Follows(events, trail) && |trail| <= |events|
    requires s == Next(trail[|trail| - 1], events[|trail| - 1]) && Advances(trail[|trail| - 1].agents.at, s.agents.at)
    ensures Follows(events, trail + [s])
  {
    hide Next, Advances;
    forall i | 0 <= i < |trail| ensures StepAt(events, trail + [s], i) {
      if i < |trail| - 1 { assert StepAt(events, trail, i); }
    }
  }

  lemma FollowsNothing(events: seq<Event>)
    ensures Follows(events, [Nothing()])
  {
  }

  /**
    Any events: each does what Next says, the tables stay bounded and consistent, and an agent that has
    ended never changes again.
   */
  method Run(events: seq<Event>) returns (background: Background, ghost trail: seq<State>)
    ensures background.Valid()
    ensures |trail| == |events| + 1 && trail[|events|] == background.Now() && Follows(events, trail)
    ensures forall k :: k in background.agents.at && background.agents.at[k].status != Running ==>
              background.agents.at[k].last == None || background.agents.at[k].last.value.status != Running
  {
    hide Follows, Next, Advances;
    background := new Background();
    trail := [background.Now()];
    FollowsNothing(events);
    for i := 0 to |events|
      invariant fresh(background) && background.Valid()
      invariant |trail| == i + 1 && trail[i] == background.Now() && Follows(events, trail)
    {
      Handle(background, events[i]);
      FollowsOn(events, trail, background.Now());
      trail := trail + [background.Now()];
    }
  }

  method Handle(background: Background, event: Event)
    requires background.Valid()
    modifies background
    ensures background.Valid() && background.Now() == Next(old(background.Now()), event)
    ensures Advances(old(background.agents.at), background.agents.at)
  {
    hide AgentOk, Distinct, Recent;
    match event
    case TaskStart(tool) => var _ := background.RecordTaskStart(tool);
    case TaskTerminal(tool) => var _ := background.RecordTaskTerminal(tool);
    case Start(agent, kind) => var _ := background.RecordStart(agent, kind);
    case Tool(agent, tool, step) => var _ := background.RecordTool(agent, tool, step);
    case Success(tool) => var _ := background.RecordToolStatus(tool, Done);
    case Failure(tool) => var _ := background.RecordToolStatus(tool, Failed);
    case AgentTerminal(agent, ending) => var _ := background.RecordAgentTerminal(agent, ending);
  }

  lemma {:induction false} JoinedLength(header: Text, lines: seq<Text>, n: nat)
    requires forall i :: 0 <= i < |lines| ==> |lines[i]| == n
    ensures |TurnProgress.Joined(header, lines)| == |header| + |lines| * (n + 1)
  {
    if lines != [] { JoinedLength(header, lines[..|lines| - 1], n); }
  }

  function SkillStep(preview: Text): TurnProgress.ProgressStep {
    TurnProgress.ProgressStep("\U{F83D}\U{F4DA}", "Reading skill", false, " ", preview)
  }

  lemma SkillBlock(kind: Text, tool: ToolId, preview: Text)
    requires preview != ""
    ensures |Block(Agent(kind, Running, Some(LastTool(tool, SkillStep(preview), Running))))| == 33 + |kind| + |preview|
  {
  }

  /** The agents 0 to n, each in one call of the same kind. */
  ghost predicate Uniform(b: Background, n: nat, kind: Text, preview: Text)
    reads b
  {
    UniformAgents(b.agents, n, kind, preview) && FirstCalls(b.toolAgents, n)
  }

  ghost predicate UniformAgents(agents: OrdMap<AgentId, Agent>, n: nat, kind: Text, preview: Text) {
    && agents.Valid() && |agents.keys| == n
    && (forall k :: k in agents.at <==> 0 <= k < n)
    && (forall k :: k in agents.at ==>
          agents.at[k] == Agent(kind, Running, Some(LastTool(k, SkillStep(preview), Running))))
  }

  ghost predicate FirstCalls(calls: OrdMap<ToolId, AgentId>, n: nat) {
    calls.Valid() && |calls.keys| == n && forall t :: t in calls.at ==> 0 <= t < n
  }

  lemma NextAgent(agents: OrdMap<AgentId, Agent>, n: nat, kind: Text, preview: Text)
    requires UniformAgents(agents, n, kind, preview)
    ensures var started := agents.Put(n, Agent(kind, Running, None));
      UniformAgents(started.Put(n, started.at[n].(last := Some(LastTool(n, SkillStep(preview), Running)))), n + 1, kind,
                    preview)
  {
    hide SkillStep;
    var started := agents.Put(n, Agent(kind, Running, None));
    PutValid(agents, n, Agent(kind, Running, None));
    PutValid(started, n, started.at[n].(last := Some(LastTool(n, SkillStep(preview), Running))));
    hide Distinct;
  }

  lemma NextCall(calls: OrdMap<ToolId, AgentId>, n: nat)
    requires FirstCalls(calls, n) && n < MAX_BACKGROUND_TOOL_IDS
    ensures n !in calls.at && FirstCalls(Recent(calls).Put(n, n), n + 1)
  {
    hide Filter, Elements, Distinct;
    assert Recent(calls) == calls by {
      assert Elements(calls.keys) == calls.at.Keys by { AllKeys(calls); }
      OnlySelf(calls);
    }
    PutValid(calls, n, n);
  }

  lemma AllKeys(calls: OrdMap<ToolId, AgentId>)
    requires calls.Valid()
    ensures Elements(calls.keys) == calls.at.Keys
  {
  }

  method AddAgent(b: Background, n: nat, kind: Text, preview: Text)
    requires b.Valid() && n < MAX_BACKGROUND_AGENTS && Uniform(b, n, kind, preview)
    modifies b
    ensures b.Valid() && Uniform(b, n + 1, kind, preview)
  {
    hide SkillStep, AgentOk, Distinct, Recent, Newest, Advances;
    NextAgent(b.agents, n, kind, preview);
    NextCall(b.toolAgents, n);
    hide FirstCalls;
    var started := b.RecordStart(n, kind);
    var recorded := b.RecordTool(n, n, SkillStep(preview));
    assert started && recorded;
  }

  /**
    Sixteen agents with types of 128 and skill names of 109 code units, all within bounds: their text exceeds the limit.
   */
  method ExceedsLimit(kind: Text, preview: Text) returns (background: Background, text: Text)
    requires |kind| == 128 && |preview| == 109
    ensures background.Valid() && Uniform(background, MAX_BACKGROUND_AGENTS, kind, preview)
    ensures |text| > TurnProgress.MAX_PROGRESS_CHARACTERS
  {
    hide Block, TurnProgress.Joined, SkillStep, Uniform, AgentOk, Distinct, Blocks;
    background := new Background();
    NoAgents(background, kind, preview);
    for i := 0 to MAX_BACKGROUND_AGENTS
      invariant fresh(background) && background.Valid() && Uniform(background, i, kind, preview)
    {
      AddAgent(background, i, kind, preview);
    }
    ghost var shown;
    text, shown := background.Render();
    AllAgents(background, kind, preview);
    TextLength(background, kind, preview, shown);
  }

  lemma NoAgents(b: Background, kind: Text, preview: Text)
    requires b.agents == Empty() && b.toolAgents == Empty()
    ensures Uniform(b, 0, kind, preview)
  {
  }

  lemma AllAgents(b: Background, kind: Text, preview: Text)
    requires Uniform(b, MAX_BACKGROUND_AGENTS, kind, preview)
    ensures |b.agents.keys| == MAX_BACKGROUND_AGENTS && b.Active() != {}
  {
    assert 0 in b.agents.at && 0 in b.Active();
  }

  /** What fits of sixteen such agents leaves no room for the marker. */
  lemma TextLength(background: Background, kind: Text, preview: Text, shown: nat)
    requires background.Valid() && Uniform(background, MAX_BACKGROUND_AGENTS, kind, preview) && |kind| == 128 &&
               |preview| == 109
    requires background.Active() != {} && shown <= MAX_BACKGROUND_AGENTS
    ensures |TurnProgress.Joined(background.Header(), Blocks(background.agents, shown))| == |background.Header()|
              + shown * 271
    ensures shown < MAX_BACKGROUND_AGENTS ==>
              |TurnProgress.Joined(background.Header(), Blocks(background.agents, shown + 1))| == |background.Header()|
                  + (shown + 1) * 271
    ensures 28 <= |background.Header()| <= 29
  {
    hide TurnProgress.Joined, SkillStep, Blocks;
    HeaderLength(background);
    UniformBlocks(background, kind, preview, background.Header(), shown);
    if shown < MAX_BACKGROUND_AGENTS { UniformBlocks(background, kind, preview, background.Header(), shown + 1); }
  }

  lemma HeaderLength(background: Background)
    requires background.Valid() && background.Active() != {}
    ensures 28 <= |background.Header()| <= 29
  {
    background.HeaderFits();
    AtMost(background.Active(), background.agents.keys);
    assert TurnProgress.Power10(1) == 10 && TurnProgress.Power10(2) == 100;
    TurnProgress.DigitsBound(|background.Active()|, 2);
  }

  lemma UniformBlocks(background: Background, kind: Text, preview: Text, header: Text, n: nat)
    requires background.Valid() && n <= |background.agents.keys| && |kind| == 128 && |preview| == 109
    requires Uniform(background, MAX_BACKGROUND_AGENTS, kind, preview)
    ensures |TurnProgress.Joined(header, Blocks(background.agents, n))| == |header| + n * 271
  {
    var blocks := Blocks(background.agents, n);
    forall i | 0 <= i < n ensures |blocks[i]| == 270 {
      SkillBlock(kind, background.agents.keys[i], preview);
    }
    JoinedLength(header, blocks, 270);
  }
}
