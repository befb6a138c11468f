/**
 * The `AgentTeam` orchestrator as objects: the attributes every team shares
 * (`_teams`, `_members`, `_tasks`), each team's own leader and thread, the
 * members whose remote agent is bound during assembly, and the remote
 * project client, modelled by the calls it receives.
 */
module AgentTeams {
  import opened Common
  import opened TeamText
  import opened Orchestration

  /** Identifier of a conversation thread on the remote service. */
  type ThreadId = nat

  /** The run-log entries for running `agents`, in order, on thread `t`. */
  function OnThread(t: ThreadId, agents: seq<AgentId>): seq<(ThreadId, AgentId)>
  {
    seq(|agents|, k requires 0 <= k < |agents| => (t, agents[k]))
  }

  /** `runs` is `runs0` followed by runs of `agents`, in order, on thread `t`. */
  ghost predicate RanOn(runs: seq<(ThreadId, AgentId)>, runs0: seq<(ThreadId, AgentId)>, t: ThreadId, agents: seq<AgentId>) {
    runs == runs0 + OnThread(t, agents)
  }

  /** The tool functions the delegation capability adds to a toolset. */
  const DelegationTools: set<string> := {"_create_task", "create_task"}

  /** The never-assigned class attribute `_team_name` the member templates receive. */
  const ClassTeamName: string := ""

  /** The exceptions the orchestrator raises, and running out of fuel in the request loop. */
  datatype TeamError =
    | EmptyTeamName
    | DuplicateTeam(name: string)
    | NoProjectClient
    | UnknownTeam(name: string)
    | LeaderAlreadyCreated
    | NoTeamLeader
    | OutOfFuel

  /**
   * The templates read from the team's YAML configuration, as functions of the
   * fields `str.format` fills in.
   */
  datatype Config = Config(
    leaderInstructions: (string, string) -> string,                     // agent_name, team_name
    initialRequest: string -> string,                                   // original_request
    completenessCheck: string,
    canDelegateInstructions: (string, string, string, string) -> string, // name, team_name, original_instructions, team_description
    noDelegateInstructions: (string, string, string, string) -> string,
    leaderModel: string)

  /** The arguments of one `create_agent` call. */
  datatype AgentSpec = AgentSpec(model: string, name: string, instructions: string, toolset: Option<set<string>>)

  /**
   * The remote project client. Agent and thread identifiers are positions in
   * the call logs; the outcome of the n-th run is `script(n)`.
   */
  class ProjectClient {
    const script: nat -> RunOutcome
    var created: seq<AgentSpec>
    var deleted: seq<AgentId>
    var threads: seq<seq<string>>
    var runs: seq<(ThreadId, AgentId)>

    constructor(script: nat -> RunOutcome)
      ensures this.script == script
      ensures created == [] && deleted == [] && threads == [] && runs == []
    {
      this.script := script;
      created, deleted, threads, runs := [], [], [], [];
    }

    /** `agents.create_agent`: a new remote agent. */
    method CreateAgent(spec: AgentSpec) returns (id: AgentId)
      modifies this
      ensures id == |old(created)| && created == old(created) + [spec]
      ensures deleted == old(deleted) && threads == old(threads) && runs == old(runs)
    {
      id := |created|;
      created := created + [spec];
    }

    /** `agents.delete_agent`. */
    method DeleteAgent(id: AgentId)
      modifies this
      ensures deleted == old(deleted) + [id]
      ensures created == old(created) && threads == old(threads) && runs == old(runs)
    {
      deleted := deleted + [id];
    }

    /** `agents.create_thread`: a new, empty thread. */
    method CreateThread() returns (t: ThreadId)
      modifies this
      ensures t == |old(threads)| && threads == old(threads) + [[]]
      ensures created == old(created) && deleted == old(deleted) && runs == old(runs)
    {
      t := |threads|;
      threads := threads + [[]];
    }

    /** `agents.create_message` with role "user" on thread `t`. */
    method CreateMessage(t: ThreadId, content: string)
      requires t < |threads|
      modifies this
      ensures threads == old(threads)[t := old(threads)[t] + [content]]
      ensures created == old(created) && deleted == old(deleted) && runs == old(runs)
    {
      threads := threads[t := threads[t] + [content]];
    }

    /**
     * `agents.create_and_process_run`, followed by reading the last agent text
     * message of the thread: the tool calls the agent made and its reply.
     */
    method CreateAndProcessRun(t: ThreadId, agent: AgentId) returns (outcome: RunOutcome)
      modifies this
      ensures outcome == script(|old(runs)|) && runs == old(runs) + [(t, agent)]
      ensures created == old(created) && deleted == old(deleted) && threads == old(threads)
    {
      outcome := script(|runs|);
      runs := runs + [(t, agent)];
    }
  }

  /** `_AgentTeamMember`: only the bound remote agent changes after construction. */
  class TeamMember {
    const model: string
    const name: string
    const instructions: string
    const toolset: Option<set<string>>
    const canDelegate: bool
    var agentInstance: Option<AgentId>

    constructor(model: string, name: string, instructions: string, toolset: Option<set<string>> := None, canDelegate: bool := true)
      ensures this.model == model && this.name == name && this.instructions == instructions
      ensures this.toolset == toolset && this.canDelegate == canDelegate
      ensures agentInstance == None
    {
      this.model := model;
      this.name := name;
      this.instructions := instructions;
      this.toolset := toolset;
      this.canDelegate := canDelegate;
      agentInstance := None;
    }
  }

  /** What a roster line shows of each member. */
  function Entries(ms: seq<TeamMember>): seq<MemberEntry>
  {
    seq(|ms|, i requires 0 <= i < |ms| => MemberEntry(ms[i].name, ms[i].instructions))
  }

  /** What the request loop reads of a member. */
  function View(m: TeamMember): MemberView
    reads m
  {
    MemberView(m.name, m.agentInstance)
  }

  function Views(ms: seq<TeamMember>): seq<MemberView>
    reads set m | m in ms
  {
    seq(|ms|, i requires 0 <= i < |ms| reads ms => View(ms[i]))
  }

  /** The remote agents bound to `vs`, in order. */
  function BoundInstances(vs: seq<MemberView>): seq<AgentId>
  {
    if vs == [] then []
    else
      var v := vs[|vs| - 1];
      BoundInstances(vs[..|vs| - 1]) + (if v.instance.Some? then [v.instance.value] else [])
  }

  /** The instructions `assemble_team` gives member `m`, whose team description is `description`. */
  function MemberInstructions(config: Config, m: TeamMember, description: string): string
  {
    if m.canDelegate then config.canDelegateInstructions(m.name, ClassTeamName, m.instructions, description)
    else config.noDelegateInstructions(m.name, ClassTeamName, m.instructions, description)
  }

  /** The `create_agent` call `assemble_team` makes for member `i`. */
  function MemberSpec(config: Config, ms: seq<TeamMember>, i: nat): AgentSpec
    requires i < |ms|
  {
    var es := Entries(ms);
    AgentSpec(ms[i].model, ms[i].name, MemberInstructions(config, ms[i], Lines(es[..i]) + Lines(es[i + 1..])), ms[i].toolset)
  }

  /** The `create_agent` calls `assemble_team` makes for the members, in insertion order. */
  function MemberSpecs(config: Config, ms: seq<TeamMember>): seq<AgentSpec>
  {
    seq(|ms|, i requires 0 <= i < |ms| => MemberSpec(config, ms, i))
  }

  /**
   * The class object `AgentTeam`: the attributes all its instances share.
   * `leaders` records every leader created, none of which is ever a member.
   */
  class AgentTeamClass {
    var teams: map<string, AgentTeam>
    var members: seq<TeamMember>
    var tasks: seq<Task>
    ghost var leaders: set<TeamMember>

    ghost predicate Valid()
      reads this
    {
      && (forall n | n in teams :: teams[n].cls == this)
      && (forall i, j | 0 <= i < j < |members| :: members[i] != members[j])
      && (forall i | 0 <= i < |members| :: members[i] !in leaders)
    }

    constructor()
      ensures Valid()
      ensures teams == map[] && members == [] && tasks == [] && leaders == {}
    {
      teams, members, tasks, leaders := map[], [], [], {};
    }

    /**
     * `AgentTeam(team_name, project_client)`: rejects an empty name, then a
     * registered name, then a missing client, and registers only after all three.
     */
    method NewTeam(name: string, client: ProjectClient?, config: Config) returns (r: Result<AgentTeam, TeamError>)
      requires Valid()
      modifies this
      ensures Valid()
      ensures name == "" ==> r == Failure(EmptyTeamName)
      ensures name != "" && name in old(teams) ==> r == Failure(DuplicateTeam(name))
      ensures name != "" && name !in old(teams) && client == null ==> r == Failure(NoProjectClient)
      ensures r.Success? <==> name != "" && name !in old(teams) && client != null
      ensures r.Success? ==> fresh(r.value) && r.value.cls == this && r.value.teamName == name && r.value.client == client
                             && r.value.teamLeader == null && r.value.threadId == None && r.value.Valid()
      ensures teams == if r.Success? then old(teams)[name := r.value] else old(teams)
      ensures members == old(members) && tasks == old(tasks) && leaders == old(leaders)
    {
      if name == "" {
        return Failure(EmptyTeamName);
      }
      if name in teams {
        return Failure(DuplicateTeam(name));
      }
      if client == null {
        return Failure(NoProjectClient);
      }
      var team := new AgentTeam(this, name, client, config);
      teams := teams[name := team];
      r := Success(team);
    }

    /** `get_team`: the registered team, or an error for an absent name. */
    method GetTeam(name: string) returns (r: Result<AgentTeam, TeamError>)
      ensures name in teams ==> r == Success(teams[name])
      ensures name !in teams ==> r == Failure(UnknownTeam(name))
    {
      if name in teams {
        r := Success(teams[name]);
      } else {
        r := Failure(UnknownTeam(name));
      }
    }

    /** `_remove_team`: unregisters a name, or fails for an absent one. */
    method RemoveTeam(name: string) returns (r: Outcome<TeamError>)
      requires Valid()
      modifies this
      ensures Valid()
      ensures r == if name in old(teams) then Pass else Fail(UnknownTeam(name))
      ensures teams == old(teams) - {name}
      ensures members == old(members) && tasks == old(tasks) && leaders == old(leaders)
    {
      if name !in teams {
        return Fail(UnknownTeam(name));
      }
      teams := teams - {name};
      r := Pass;
    }

    /**
     * `_create_task` (and its alias `create_task`): appends one task when the
     * team name is registered and answers "True", else changes nothing and
     * answers "False"; it never fails. Any registered name reaches the one
     * shared task list.
     */
    method CreateTask(teamName: string, recipient: string, request: string, requestor: string) returns (answer: string)
      requires Valid()
      modifies this
      ensures Valid()
      ensures answer == if teamName in teams then "True" else "False"
      ensures tasks == old(tasks) + if teamName in teams then [Task(recipient, request, requestor)] else []
      ensures teams == old(teams) && members == old(members) && leaders == old(leaders)
    {
      var task := Task(recipient, request, requestor);
      var found := GetTeam(teamName);
      if found.Success? {
        found.value.AddTask(task);
        return "True";
      }
      return "False";
    }

    /**
     * A registered name is refused until `_remove_team` frees it; then the
     * same name can be registered again.
     */
    method ReRegister(name: string, client: ProjectClient, config: Config)
      returns (refused: Result<AgentTeam, TeamError>, removed: Outcome<TeamError>, accepted: Result<AgentTeam, TeamError>)
      requires Valid() && name != "" && name in teams
      modifies this
      ensures Valid()
      ensures refused == Failure(DuplicateTeam(name)) && removed == Pass
      ensures accepted.Success? && accepted.value.teamName == name && accepted.value.client == client
      ensures teams == old(teams)[name := accepted.value]
    {
      refused := NewTeam(name, client, config);
      removed := RemoveTeam(name);
      accepted := NewTeam(name, client, config);
    }

    /**
     * The `create_task` tool calls an agent makes while its run is in flight,
     * executed in call order by the service's automatic function calling.
     */
    method ExecuteToolCalls(calls: seq<Delegation>)
      requires Valid()
      modifies this
      ensures Valid()
      ensures tasks == old(tasks) + Accepted(teams.Keys, calls)
      ensures teams == old(teams) && members == old(members) && leaders == old(leaders)
    {
      for k := 0 to |calls|
        invariant Valid() && teams == old(teams) && members == old(members) && leaders == old(leaders)
        invariant tasks == old(tasks) + Accepted(teams.Keys, calls[..k])
      {
        var d := calls[k];
        var _ := CreateTask(d.teamName, d.recipient, d.request, d.requestor);
        assert calls[..k + 1][..k] == calls[..k];
      }
      assert calls[..|calls|] == calls;
    }
  }

  /** One `AgentTeam` instance. */
  class AgentTeam {
    const cls: AgentTeamClass
    const teamName: string
    const client: ProjectClient
    const config: Config
    var threadId: Option<ThreadId>
    var teamLeader: TeamMember?

    ghost predicate Valid()
      reads this, cls
    {
      cls.Valid() && (teamLeader != null ==> teamLeader in cls.leaders)
    }

    constructor(cls: AgentTeamClass, teamName: string, client: ProjectClient, config: Config)
      ensures this.cls == cls && this.teamName == teamName && this.client == client && this.config == config
      ensures threadId == None && teamLeader == null
    {
      this.cls := cls;
      this.teamName := teamName;
      this.client := client;
      this.config := config;
      threadId := None;
      teamLeader := null;
    }

    /**
     * `add_agent`: appends a new member to the shared list; a member that can
     * delegate gets the delegation tools added to its toolset (an absent
     * toolset starts empty).
     */
    method AddAgent(model: string, name: string, instructions: string, toolset: Option<set<string>> := None, canDelegate: bool := true)
      requires Valid()
      modifies cls
      ensures Valid()
      ensures |cls.members| == |old(cls.members)| + 1 && cls.members[..|old(cls.members)|] == old(cls.members)
      ensures var m := cls.members[|old(cls.members)|];
        && fresh(m) && m.model == model && m.name == name && m.instructions == instructions
        && m.canDelegate == canDelegate && m.agentInstance == None
        && m.toolset == Some(if canDelegate then toolset.GetOr({}) + DelegationTools else toolset.GetOr({}))
      ensures cls.teams == old(cls.teams) && cls.tasks == old(cls.tasks) && cls.leaders == old(cls.leaders)
    {
      var tools := toolset.GetOr({});
      if canDelegate {
        tools := tools + DelegationTools;
      }
      var member := new TeamMember(model, name, instructions, Some(tools), canDelegate);
      cls.members := cls.members + [member];
    }

    /** `_add_task`: appends to the shared task list. */
    method AddTask(task: Task)
      modifies cls
      ensures cls.tasks == old(cls.tasks) + [task]
      ensures cls.teams == old(cls.teams) && cls.members == old(cls.members) && cls.leaders == old(cls.leaders)
    {
      cls.tasks := cls.tasks + [task];
    }

    /**
     * `create_team_leader`: fails when a leader exists; otherwise appends one
     * roster line per member present now to the instructions and creates the
     * leader's remote agent.
     */
    method CreateTeamLeader(model: string, name: string, instructions: string, toolset: Option<set<string>> := None)
      returns (r: Outcome<TeamError>)
      requires Valid()
      modifies this, cls, client
      ensures Valid()
      ensures old(teamLeader) != null ==> r == Fail(LeaderAlreadyCreated) && teamLeader == old(teamLeader) && client.created == old(client.created)
      ensures old(teamLeader) == null ==>
        && r == Pass && teamLeader != null && fresh(teamLeader)
        && teamLeader.model == model && teamLeader.name == name && teamLeader.toolset == toolset && teamLeader.canDelegate
        && teamLeader.instructions == instructions + Lines(Entries(cls.members))
        && client.created == old(client.created) + [AgentSpec(model, name, teamLeader.instructions, toolset)]
        && teamLeader.agentInstance == Some(|old(client.created)|)
      ensures threadId == old(threadId)
      ensures cls.teams == old(cls.teams) && cls.members == old(cls.members) && cls.tasks == old(cls.tasks)
      ensures client.deleted == old(client.deleted) && client.threads == old(client.threads) && client.runs == old(client.runs)
    {
      if teamLeader != null {
        return Fail(LeaderAlreadyCreated);
      }
      var text := AppendRoster(instructions, Entries(cls.members));
      var leader := new TeamMember(model, name, text, toolset, true);
      var id := client.CreateAgent(AgentSpec(model, name, text, toolset));
      leader.agentInstance := Some(id);
      teamLeader := leader;
      cls.leaders := cls.leaders + {leader};
      r := Pass;
    }

    /** `_create_team_leader`: the default leader "TeamLeader" from the leader template, with the delegation tools. */
    method CreateDefaultTeamLeader() returns (r: Outcome<TeamError>)
      requires Valid()
      modifies this, cls, client
      ensures Valid()
      ensures old(teamLeader) != null ==> r == Fail(LeaderAlreadyCreated) && teamLeader == old(teamLeader) && client.created == old(client.created)
      ensures old(teamLeader) == null ==>
        && r == Pass && teamLeader != null && fresh(teamLeader)
        && teamLeader.model == config.leaderModel && teamLeader.name == LeaderName
        && teamLeader.toolset == Some(DelegationTools) && teamLeader.canDelegate
        && teamLeader.instructions == config.leaderInstructions(LeaderName, teamName) + "\n" + Lines(Entries(cls.members))
        && client.created == old(client.created) + [AgentSpec(config.leaderModel, LeaderName, teamLeader.instructions, Some(DelegationTools))]
        && teamLeader.agentInstance == Some(|old(client.created)|)
      ensures threadId == old(threadId)
      ensures cls.teams == old(cls.teams) && cls.members == old(cls.members) && cls.tasks == old(cls.tasks)
      ensures client.deleted == old(client.deleted) && client.threads == old(client.threads) && client.runs == old(client.runs)
    {
      var instructions := config.leaderInstructions(LeaderName, teamName) + "\n";
      r := CreateTeamLeader(config.leaderModel, LeaderName, instructions, Some(DelegationTools));
    }
  
    /**
     * `_get_member_by_name`: the literal "TeamLeader" answers the leader;
     * any other name the first member in insertion order with that name, or null.
     */
    method GetMemberByName(name: string) returns (m: TeamMember?)
      ensures m == match MemberByName(Names(Views(cls.members)), name)
                   case LeaderHit => teamLeader
                   case MemberAt(i) => cls.members[i]
                   case Missing => null
    {
      if name == LeaderName {
        return teamLeader;
      }
      var members := cls.members;
      ghost var names := Names(Views(members));
      for i := 0 to |members|
        invariant name !in names[..i]
      {
        if members[i].name == name {
          assert names[i] == name;
          return members[i];
        }
        assert names[..i + 1] == names[..i] + [names[i]];
      }
      assert names[..|members|] == names;
      return null;
    }

    /**
     * `assemble_team`: creates the default leader when there is none, then a
     * remote agent for every member in insertion order, each with the
     * template its `canDelegate` selects and a team description listing every
     * other member.
     */
    method AssembleTeam()
      requires Valid()
      modifies this, cls, client, set m | m in cls.members
      ensures Valid()
      ensures teamLeader != null
      ensures old(teamLeader) != null ==> teamLeader == old(teamLeader) && teamLeader.agentInstance == old(teamLeader.agentInstance)
      ensures old(teamLeader) == null ==>
        && fresh(teamLeader) && teamLeader.name == LeaderName && teamLeader.model == config.leaderModel
        && teamLeader.instructions == config.leaderInstructions(LeaderName, teamName) + "\n" + Lines(Entries(cls.members))
        && teamLeader.agentInstance == Some(|old(client.created)|)
      ensures client.created == old(client.created)
        + (if old(teamLeader) == null then [AgentSpec(config.leaderModel, LeaderName, teamLeader.instructions, Some(DelegationTools))] else [])
        + MemberSpecs(config, cls.members)
      ensures forall i | 0 <= i < |cls.members| :: cls.members[i].agentInstance == Some(|client.created| - |cls.members| + i)
      ensures threadId == old(threadId)
      ensures cls.teams == old(cls.teams) && cls.members == old(cls.members) && cls.tasks == old(cls.tasks)
      ensures client.deleted == old(client.deleted) && client.threads == old(client.threads) && client.runs == old(client.runs)
    {
      if teamLeader == null {
        var _ := CreateDefaultTeamLeader();
      }
      AssembleMembers();
    }

    /** The member loop of `assemble_team`; the leader, never a member, is left alone. */
    method AssembleMembers()
      requires Valid() && teamLeader != null
      modifies client, set m | m in cls.members
      ensures client.created == old(client.created) + MemberSpecs(config, cls.members)
      ensures forall i | 0 <= i < |cls.members| :: cls.members[i].agentInstance == Some(|old(client.created)| + i)
      ensures client.deleted == old(client.deleted) && client.threads == old(client.threads) && client.runs == old(client.runs)
    {
      var members := cls.members;
      var es := Entries(members);
      ghost var before := client.created;
      for i := 0 to |members|
        invariant |client.created| == |before| + i && client.created[..|before|] == before
        invariant forall j | 0 <= j < i :: client.created[|before| + j] == MemberSpec(config, members, j)
        invariant forall j | 0 <= j < i :: members[j].agentInstance == Some(|before| + j)
        invariant client.deleted == old(client.deleted) && client.threads == old(client.threads) && client.runs == old(client.runs)
      {
        if members[i] != teamLeader {
          BindMember(es, i);
        }
      }
      assert client.created == before + MemberSpecs(config, members);
    }

    /** One pass of the member loop of `assemble_team`: member `i` gets its own remote agent. */
    method BindMember(es: seq<MemberEntry>, i: nat)
      requires es == Entries(cls.members) && i < |cls.members|
      modifies client, cls.members[i]
      ensures client.created == old(client.created) + [MemberSpec(config, cls.members, i)]
      ensures cls.members[i].agentInstance == Some(|old(client.created)|)
      ensures client.deleted == old(client.deleted) && client.threads == old(client.threads) && client.runs == old(client.runs)
    {
      var member := cls.members[i];
      var description := DescribeOthers(es, i);
      var extended := MemberInstructions(config, member, description);
      var id := client.CreateAgent(AgentSpec(member.model, member.name, extended, member.toolset));
      member.agentInstance := Some(id);
    }

    /** What the request loop reads and never changes: registered names, leader, members, templates, the service. */
    ghost function TeamEnv(): Env
      requires teamLeader != null
      reads this, cls, teamLeader, set m | m in cls.members
    {
      Env(cls.teams.Keys, View(teamLeader), Views(cls.members), config.completenessCheck, client.script)
    }

    /** The loop's state once the leader's initial request is queued behind whatever the shared queue holds. */
    ghost function Seeded(request: string): LoopState
      requires teamLeader != null
      reads this, cls, teamLeader, client
    {
      LoopState(cls.tasks + [Task(teamLeader.name, config.initialRequest(request), UserRequestor)], [], |client.runs|, [], [])
    }

    /**
     * The request loop's state mirrored by the objects: the queue is the shared
     * task list, the replies recorded so far are `responses`, the run count is
     * the client's, the client's runs after `runs0` are the agents the loop ran,
     * each on the thread, the messages posted are the last thread's, and the
     * loop's environment is the team as it stands.
     */
    ghost predicate Mirrors(env: Env, thread: ThreadId, threads0: seq<seq<string>>, runs0: seq<(ThreadId, AgentId)>,
                            st: LoopState, responses: seq<Response>)
      reads this, cls, client, teamLeader, set m | m in cls.members
    {
      && Valid() && teamLeader != null && threadId == Some(thread) && thread == |threads0|
      && st.queue == cls.tasks && st.responses == responses && st.runs == |client.runs|
      && RanOn(client.runs, runs0, thread, st.ran)
      && client.threads == threads0 + [st.posted]
      && env == TeamEnv()
    }

    /**
     * `process_request`: fails without a leader; otherwise opens a new thread,
     * queues the leader's initial request and runs `while self._tasks` for at
     * most `fuel` iterations, which is `Drain` of the pure model: the same
     * queue, the same recorded replies, the same agents run, each on the new
     * thread, and the same messages posted on it. The replies are returned only when the queue
     * has run dry.
     */
    method ProcessRequest(request: string, fuel: nat) returns (r: Result<seq<Response>, TeamError>)
      requires Valid()
      modifies this, cls, client
      ensures Valid()
      ensures old(teamLeader) == null ==>
        && r == Failure(NoTeamLeader) && threadId == old(threadId)
        && cls.tasks == old(cls.tasks) && client.threads == old(client.threads) && client.runs == old(client.runs)
      ensures old(teamLeader) != null ==>
        var final := Drain(old(TeamEnv()), old(Seeded(request)), fuel);
        && threadId == Some(|old(client.threads)|)
        && cls.tasks == final.queue
        && client.threads == old(client.threads) + [final.posted]
        && |client.runs| == final.runs && client.runs == old(client.runs) + OnThread(|old(client.threads)|, final.ran)
        && r == if final.queue == [] then Success(final.responses) else Failure(OutOfFuel)
      ensures teamLeader == old(teamLeader)
      ensures cls.teams == old(cls.teams) && cls.members == old(cls.members) && cls.leaders == old(cls.leaders)
      ensures client.created == old(client.created) && client.deleted == old(client.deleted)
    {
      if teamLeader == null {
        return Failure(NoTeamLeader);
      }
      ghost var env := TeamEnv();
      ghost var start := Seeded(request);
      var thread := OpenRequest(request);
      var responses;
      ghost var final;
      responses, final := RunTasks(env, thread, old(client.threads), old(client.runs), start, [], fuel);
      if cls.tasks == [] {
        r := Success(responses);
      } else {
        r := Failure(OutOfFuel);
      }
    }

    /** `while self._tasks`, for at most `fuel` iterations: the objects end as `Drain` does. */
    method RunTasks(ghost env: Env, thread: ThreadId, ghost threads0: seq<seq<string>>, ghost runs0: seq<(ThreadId, AgentId)>,
                    ghost start: LoopState, recorded: seq<Response>, fuel: nat)
      returns (responses: seq<Response>, ghost final: LoopState)
      requires Mirrors(env, thread, threads0, runs0, start, recorded)
      modifies cls, client
      ensures final == Drain(env, start, fuel) && Mirrors(env, thread, threads0, runs0, final, responses)
      ensures cls.teams == old(cls.teams) && cls.members == old(cls.members) && cls.leaders == old(cls.leaders)
      ensures client.created == old(client.created) && client.deleted == old(client.deleted)
      ensures old(client.runs) <= client.runs
    {
      responses := recorded;
      ghost var cur := start;
      ghost var left := fuel;
      var steps: nat := 0;
      while cls.tasks != [] && steps < fuel
        invariant Mirrors(env, thread, threads0, runs0, cur, responses)
        invariant steps <= fuel && left == fuel - steps && Drain(env, cur, left) == Drain(env, start, fuel)
        invariant cls.teams == old(cls.teams) && cls.members == old(cls.members) && cls.leaders == old(cls.leaders)
        invariant client.created == old(client.created) && client.deleted == old(client.deleted)
        invariant old(client.runs) <= client.runs
        decreases fuel - steps
      {
        responses, cur := ServeNext(env, thread, threads0, runs0, cur, responses, left);
        steps, left := steps + 1, left - 1;
      }
      final := cur;
    }

    /** The set-up of `process_request`: a new thread, and the leader's initial request queued. */
    method OpenRequest(request: string) returns (thread: ThreadId)
      requires Valid() && teamLeader != null
      modifies this, cls, client
      ensures Mirrors(old(TeamEnv()), thread, old(client.threads), old(client.runs), old(Seeded(request)), [])
      ensures teamLeader == old(teamLeader)
      ensures cls.teams == old(cls.teams) && cls.members == old(cls.members) && cls.leaders == old(cls.leaders)
      ensures client.created == old(client.created) && client.deleted == old(client.deleted) && client.runs == old(client.runs)
    {
      thread := client.CreateThread();
      threadId := Some(thread);
      AddTask(Task(teamLeader.name, config.initialRequest(request), UserRequestor));
    }

    /** One iteration of `while self._tasks`: the objects move as `Step` does. */
    method ServeNext(ghost env: Env, thread: ThreadId, ghost threads0: seq<seq<string>>, ghost runs0: seq<(ThreadId, AgentId)>,
                     ghost cur: LoopState, responses: seq<Response>, ghost fuel: nat)
      returns (next: seq<Response>, ghost after: LoopState)
      requires Mirrors(env, thread, threads0, runs0, cur, responses) && cur.queue != [] && fuel > 0
      modifies cls, client
      ensures after == Step(env, cur) && Drain(env, after, fuel - 1) == Drain(env, cur, fuel)
      ensures Mirrors(env, thread, threads0, runs0, after, next)
      ensures cls.teams == old(cls.teams) && cls.members == old(cls.members) && cls.leaders == old(cls.leaders)
      ensures client.created == old(client.created) && client.deleted == old(client.deleted)
      ensures old(client.runs) <= client.runs
    {
      var task;
      task, next := Dispatch(env, thread, threads0, runs0, cur, responses);
      if cls.tasks == [] && task.recipient != LeaderName {
        AddTask(Task(teamLeader.name, config.completenessCheck, UserRequestor));
      }
      after := Step(env, cur);
      DrainUnfolds(env, cur, fuel);
    }

    /**
     * The first part of an iteration: pops the head task, posts its
     * description on the thread and, when the recipient resolves to a member
     * with a bound agent, runs it, executes its tool calls and records its reply.
     */
    method Dispatch(ghost env: Env, thread: ThreadId, ghost threads0: seq<seq<string>>, ghost runs0: seq<(ThreadId, AgentId)>,
                    ghost cur: LoopState, responses: seq<Response>)
      returns (task: Task, next: seq<Response>)
      requires Mirrors(env, thread, threads0, runs0, cur, responses) && cur.queue != []
      modifies cls, client
      ensures Valid()
      ensures task == cur.queue[0]
      ensures cls.tasks == cur.queue[1..] + Delegated(env, cur)
      ensures next == Step(env, cur).responses && |client.runs| == Step(env, cur).runs
      ensures client.runs == old(client.runs) + if Dispatches(env, cur)
                                                then [(thread, Resolve(env, cur.queue[0].recipient).value.instance.value)]
                                                else []
      ensures client.threads == threads0 + [Step(env, cur).posted]
      ensures cls.teams == old(cls.teams) && cls.members == old(cls.members) && cls.leaders == old(cls.leaders)
      ensures client.created == old(client.created) && client.deleted == old(client.deleted)
      ensures old(client.runs) <= client.runs
    {
      task := cls.tasks[0];
      cls.tasks := cls.tasks[1..];
      client.CreateMessage(thread, task.description);
      var agent := GetMemberByName(task.recipient);
      ResolvedAgent(env, task.recipient, agent);
      next := responses;
      if agent != null && agent.agentInstance.Some? {
        var instance := agent.agentInstance.value;
        var outcome := client.CreateAndProcessRun(thread, instance);
        cls.ExecuteToolCalls(outcome.toolCalls);
        if outcome.reply.Some? && outcome.reply.value.text != "" {
          next := next + [Response(outcome.reply.value.assistantId.GetOr(instance), outcome.reply.value.text, agent.name)];
        }
      }
    }

    /** The member `GetMemberByName` answers is the one `Resolve` finds, seen through `View`. */
    lemma ResolvedAgent(env: Env, name: string, agent: TeamMember?)
      requires teamLeader != null && env.leader == View(teamLeader) && env.members == Views(cls.members)
      requires agent == match MemberByName(Names(Views(cls.members)), name)
                        case LeaderHit => teamLeader
                        case MemberAt(i) => cls.members[i]
                        case Missing => null
      ensures agent == null <==> Resolve(env, name).None?
      ensures agent != null ==> Resolve(env, name) == Some(View(agent))
    {
    }

    /**
     * `dismantle_team`: deletes the leader's remote agent, then every bound
     * member's in insertion order (the shared list, so other teams' members
     * too), then unregisters the team name, failing if it is not registered.
     */
    method DismantleTeam() returns (r: Outcome<TeamError>)
      requires Valid()
      modifies cls, client
      ensures Valid()
      ensures client.deleted == old(client.deleted)
        + (if teamLeader != null && teamLeader.agentInstance.Some? then [teamLeader.agentInstance.value] else [])
        + BoundInstances(Views(cls.members))
      ensures r == if teamName in old(cls.teams) then Pass else Fail(UnknownTeam(teamName))
      ensures cls.teams == old(cls.teams) - {teamName}
      ensures cls.members == old(cls.members) && cls.tasks == old(cls.tasks)
      ensures client.created == old(client.created) && client.threads == old(client.threads) && client.runs == old(client.runs)
    {
      if teamLeader != null && teamLeader.agentInstance.Some? {
        client.DeleteAgent(teamLeader.agentInstance.value);
      }
      DeleteMembers();
      r := cls.RemoveTeam(teamName);
    }

    /** The member loop of `dismantle_team`: every bound member's agent is deleted, in insertion order. */
    method DeleteMembers()
      requires Valid()
      modifies client
      ensures client.deleted == old(client.deleted) + BoundInstances(Views(cls.members))
      ensures client.created == old(client.created) && client.threads == old(client.threads) && client.runs == old(client.runs)
    {
      var members := cls.members;
      ghost var views := Views(members);
      for i := 0 to |members|
        invariant client.deleted == old(client.deleted) + BoundInstances(views[..i])
        invariant client.created == old(client.created) && client.threads == old(client.threads) && client.runs == old(client.runs)
      {
        var member := members[i];
        if member != teamLeader && member.agentInstance.Some? {
          client.DeleteAgent(member.agentInstance.value);
        }
        assert views[..i + 1][..i] == views[..i];
      }
      assert views[..|members|] == views;
    }
  }
}
