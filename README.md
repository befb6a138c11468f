# Agent-team orchestrator, modelled in Dafny

This project models the agent-team orchestrator of `2-ai_multiagent/notebook/agent_team.py`:
a team of remote agents, led by a team leader, that serves a user's request by passing
tasks around a shared queue. It covers five parts.

- **Team registry.** `AgentTeam(team_name, project_client)` registers a team under its
  name in the process-wide `_teams` dictionary. `get_team` looks a name up and
  `_remove_team` unregisters it.
- **Member bookkeeping.** `add_agent` appends members. `create_team_leader` and
  `_create_team_leader` build the leader's instructions from a roster of the members.
  `assemble_team` gives every member a remote agent whose instructions describe the
  other members. `dismantle_team` deletes the remote agents and unregisters the team.
- **Delegation.** The tool functions `_create_task`/`create_task` append a task to the
  named team's queue and answer `"True"` or `"False"`.
- **Request loop.** `process_request` queues the leader's initial request and serves the
  queue first-in first-out. It records each non-empty agent reply. When the queue empties
  after a task not addressed to `"TeamLeader"`, it queues one completeness-check task for
  the leader.
- **Citations.** `print_response_with_citations` splices `[text](url)` links into a reply.

Files:

- `common.dfy`: `Option`, `Result` and `Outcome` (success or an error, no value).
- `citations.dfy` (module `Citations`): the renderer as a left fold `Weave` with Python
  slice semantics (`PySlice`). The loop `PrintResponseWithCitations` is proved equal to
  that fold, and lemmas about the fold follow.
- `team_text.dfy` (module `TeamText`): roster lines `"- name: instructions\n"`. The two
  string-building loops (the leader's roster and one member's description of the others)
  are proved against the pure `Lines`/`Others`.
- `orchestration.dfy` (module `Orchestration`): the pure model of the request loop.
  `MemberByName` is the lookup. `Accepted` gives the tasks a series of `_create_task`
  calls appends. `Step` is one iteration of `while self._tasks`. `Drain` is the loop run
  for at most `fuel` iterations. Lemmas cover order, recording, the completeness rule and
  a worked delegation run.
- `agent_teams.dfy` (module `AgentTeams`): the objects.
  - `AgentTeamClass` holds the attributes the Python class object shares between all
    instances: `_teams`, `_members` and `_tasks`.
  - `AgentTeam` holds an instance's leader and thread.
  - `TeamMember` is `_AgentTeamMember`, whose remote agent is bound in place.
  - `ProjectClient` stands for the remote service. It logs the calls it receives, and an
    oracle `script` answers the n-th run.
  - `ProcessRequest` is proved to leave the objects exactly as `Drain` of the pure model
    says: the queue, the replies, the runs (which agent, on which thread) and the messages
    posted.

Behaviour kept as the code has it:

- `_members` and `_tasks` are class attributes (`agent_team.py:62-63`). Every team
  therefore appends to one member list and one task queue.
  - `assemble_team` binds, and `dismantle_team` deletes, every member of every team.
  - `_create_task` with any registered team name appends to that one queue.
  - `process_request` queues its seed task behind whatever is already queued.
- `_team_name` is never assigned (`agent_team.py:64`), so the member templates receive
  `""` (`ClassTeamName`). The leader template receives the real `team_name`.
- Leader detection uses the literal `"TeamLeader"` in both the lookup and the
  completeness rule, so the leader is found under `"TeamLeader"` whatever its own name.
  `NonDefaultLeaderNeverDrains` proves the consequence for a leader created under another
  name: it is not found under its own name, and when no member has that name and only
  tasks for the leader are queued, the queue never empties.
- Each task's description is posted to the thread before its recipient is looked up. A
  task whose recipient is unknown is still posted.
- Each `process_request` call opens a new thread.
- `dismantle_team` deletes the agents first and then calls `_remove_team`. If the name
  is no longer registered, that call fails after the agents are already deleted.

## Model

| member | source | states |
|---|---|---|
| AgentTeams.AgentTeamClass.constructor | 2-ai_multiagent/notebook/agent_team.py:57-64 | the shared registry, member list and task queue start empty |
| AgentTeams.AgentTeamClass.NewTeam | 2-ai_multiagent/notebook/agent_team.py:66-81 | the checks run in order: an empty name fails, then a registered name, then a missing client; the team is registered only when all three pass, with no leader and no thread |
| AgentTeams.AgentTeamClass.GetTeam | 2-ai_multiagent/notebook/agent_team.py:98-104 | a registered name yields its team; an absent name yields an error |
| AgentTeams.AgentTeamClass.RemoveTeam | 2-ai_multiagent/notebook/agent_team.py:106-111 | an absent name fails; otherwise the name is no longer registered and nothing else changes |
| AgentTeams.AgentTeamClass.ReRegister | 2-ai_multiagent/notebook/agent_team.py:66-111 | a registered name is refused as a duplicate, then `_remove_team` frees it, then the same name registers again |
| AgentTeams.AgentTeamClass.CreateTask | 2-ai_multiagent/notebook/agent_team.py:365-388 | answers "True" and appends exactly one task (recipient, request, requestor) at the end of the shared queue when the team name is registered; otherwise answers "False" and changes nothing; it never fails |
| AgentTeams.AgentTeamClass.ExecuteToolCalls | 2-ai_multiagent/notebook/agent_team.py:312-315 | the `create_task` calls made during a run append `Accepted` of those calls, in call order |
| AgentTeams.TeamMember.constructor | 2-ai_multiagent/notebook/agent_team.py:24-32 | the fields are as given, the toolset defaults to none and the can-delegate flag to true, and no agent is bound |
| AgentTeams.AgentTeam.constructor | 2-ai_multiagent/notebook/agent_team.py:66-81 | a new team has its name and client, and no leader or thread |
| AgentTeams.AgentTeam.AddAgent | 2-ai_multiagent/notebook/agent_team.py:113-147 | appends one new unbound member to the shared list; a member that can delegate gets the delegation tools added to its toolset, and an absent toolset starts empty |
| AgentTeams.AgentTeam.AddTask | 2-ai_multiagent/notebook/agent_team.py:149-155 | appends the task at the end of the shared queue |
| AgentTeams.AgentTeam.CreateTeamLeader | 2-ai_multiagent/notebook/agent_team.py:157-187 | fails when a leader exists; otherwise the leader's instructions are the given ones followed by one roster line per current member in insertion order, the leader can delegate, and one remote agent is created for it |
| AgentTeams.AgentTeam.CreateDefaultTeamLeader | 2-ai_multiagent/notebook/agent_team.py:189-201 | the default leader is named "TeamLeader", uses the leader template filled with the team's real name plus a newline, and has the delegation tools |
| AgentTeams.AgentTeam.AssembleTeam | 2-ai_multiagent/notebook/agent_team.py:203-238 | creates the default leader only when none exists, then one remote agent per member in insertion order, each with the template its can-delegate flag selects and a description of the other members; the leader is never re-created |
| AgentTeams.AgentTeam.AssembleMembers | 2-ai_multiagent/notebook/agent_team.py:213-238 | the agents created are exactly `MemberSpecs` of the member list, and member i is bound to the i-th of them |
| AgentTeams.AgentTeam.BindMember | 2-ai_multiagent/notebook/agent_team.py:216-238 | member i's agent is created with `MemberSpec` (its template and the description of the others) and bound to it |
| AgentTeams.AgentTeam.DismantleTeam | 2-ai_multiagent/notebook/agent_team.py:240-264 | deletes the leader's agent, then every bound member's agent in insertion order, then unregisters the name, failing when it is absent |
| AgentTeams.AgentTeam.DeleteMembers | 2-ai_multiagent/notebook/agent_team.py:255-262 | every bound member's agent is deleted, in insertion order, and nothing else is called |
| AgentTeams.AgentTeam.GetMemberByName | 2-ai_multiagent/notebook/agent_team.py:350-362 | the loop answers what `MemberByName` says: the leader for "TeamLeader", the first member with the name, or null |
| AgentTeams.AgentTeam.ProcessRequest | 2-ai_multiagent/notebook/agent_team.py:267-348 | fails without a leader; otherwise opens a new thread and ends as `Drain` from the queue with the leader's initial request appended: the same queue, thread messages and replies, which are returned when the queue runs dry, and the client's run log grows by exactly the agents `Drain` runs, in order, each on the new thread |
| AgentTeams.AgentTeam.OpenRequest | 2-ai_multiagent/notebook/agent_team.py:276-283 | a new thread becomes the team's thread, and one task for the leader with requestor "user" is appended to the shared queue |
| AgentTeams.AgentTeam.RunTasks | 2-ai_multiagent/notebook/agent_team.py:287-348 | the loop ends in the state `Drain` computes for the same fuel |
| AgentTeams.AgentTeam.ServeNext | 2-ai_multiagent/notebook/agent_team.py:287-348 | one iteration moves the objects as `Step` does, including the completeness task, and the loop's remaining outcome is that of one fewer iteration from the new state |
| AgentTeams.AgentTeam.Dispatch | 2-ai_multiagent/notebook/agent_team.py:287-336 | pops the head, posts its description, and when the recipient has a bound agent runs it, appends its delegations and records a non-empty reply; the run log gains exactly one entry, the recipient's resolved agent on the team's thread, when it runs one, and none otherwise |
| AgentTeams.AgentTeam.ResolvedAgent | 2-ai_multiagent/notebook/agent_team.py:302-303 | the member the lookup answers is null exactly when `Resolve` finds none, and otherwise is the one it finds |
| Orchestration.FirstIndexOf | 2-ai_multiagent/notebook/agent_team.py:359-362 | the index found holds the name and no earlier index does; none is found exactly when the name is absent |
| Orchestration.MemberByName | 2-ai_multiagent/notebook/agent_team.py:350-362 | "TeamLeader" answers the leader (if and only if); otherwise the first index holding the name, or nothing exactly when no member has it |
| Orchestration.AcceptedAllRegistered | 2-ai_multiagent/notebook/agent_team.py:365-385 | N calls naming registered teams append exactly N tasks, the k-th built from the k-th call |
| Orchestration.AcceptedNoneRegistered | 2-ai_multiagent/notebook/agent_team.py:365-385 | calls naming no registered team append nothing |
| Orchestration.DrainUnfolds | 2-ai_multiagent/notebook/agent_team.py:287-288 | with a task queued and fuel left, the loop is one step followed by the rest |
| Orchestration.StepKeepsPendingOrder | 2-ai_multiagent/notebook/agent_team.py:287-299 | `pop(0)`: a step posts the head task's description, and the tasks still waiting stay, in order, at the front of the new queue |
| Orchestration.CompletenessCheck | 2-ai_multiagent/notebook/agent_team.py:340-348 | when nothing is left after a non-"TeamLeader" task, the queue becomes exactly one completeness task for the leader; the queue ends empty if and only if nothing is left after a "TeamLeader" task |
| Orchestration.UnresolvedRecipientDropped | 2-ai_multiagent/notebook/agent_team.py:295-303 | an unknown or unbound recipient causes no run and no record, but its message is still posted and the loop goes on |
| Orchestration.StepRecordsExactly | 2-ai_multiagent/notebook/agent_team.py:302-336 | a step records a response if and only if it runs a bound agent whose reply has non-empty text; the record holds the reply's assistant id (or the agent's), the text and the member's name; so a step keeps the earlier records and posts, and adds at most one attributed record, only when it runs an agent |
| Orchestration.ExtendsTrans | 2-ai_multiagent/notebook/agent_team.py:287-336 | extending the recorded history is transitive |
| Orchestration.DrainRecordsReplies | 2-ai_multiagent/notebook/agent_team.py:287-336 | over the whole loop, earlier records and messages are kept, each new record has non-empty text and names the leader or a member, and there are no more records than runs |
| Orchestration.DrainKeepsPosted | 2-ai_multiagent/notebook/agent_team.py:295-299 | thread messages only grow, at the end |
| Orchestration.DrainServesInOrder | 2-ai_multiagent/notebook/agent_team.py:287-299 | with n steps of fuel, the first n queued tasks are served in queue order: their descriptions are the next n messages on the thread |
| Orchestration.ServedAfterStep | 2-ai_multiagent/notebook/agent_team.py:287-299 | posting the head task's description and then serving the rest of the tasks serves all of them in order, and keeps the messages posted before |
| Orchestration.NonDefaultLeaderNeverDrains | 2-ai_multiagent/notebook/agent_team.py:340-357 | with a leader not named "TeamLeader" and not a member, a queue of tasks for the leader never empties and records nothing |
| Orchestration.DelegationScenario | 2-ai_multiagent/notebook/agent_team.py:275-348 | the leader delegates one task to "Writer", and the leader's completeness run replies with empty text; the loop ends after three runs, of the leader, the Writer and the leader again, with the leader's and then the Writer's reply, having posted the request, the delegated task and the completeness text |
| TeamText.AppendRoster | 2-ai_multiagent/notebook/agent_team.py:171-173 | the loop yields the instructions followed by one roster line per entry, in order |
| TeamText.DescribeOthers | 2-ai_multiagent/notebook/agent_team.py:216-220 | the description lists the members before i and then those after i, in order, and is exactly one line shorter than the full roster |
| TeamText.OthersDescription | 2-ai_multiagent/notebook/agent_team.py:216-220 | the roster of the others is the roster before i followed by the roster after i |
| TeamText.OthersSkipsSelf | 2-ai_multiagent/notebook/agent_team.py:218-219 | the others of member i are all entries except the i-th, in order |
| TeamText.OthersBeyond | 2-ai_multiagent/notebook/agent_team.py:218-219 | an index past the end excludes nobody |
| TeamText.LinesAppend | 2-ai_multiagent/notebook/agent_team.py:171-173 | the roster of two lists is the roster of the first followed by that of the second |
| TeamText.LinesSnoc | 2-ai_multiagent/notebook/agent_team.py:171-173 | adding an entry adds its line at the end |
| Citations.SliceBound | 2-ai_multiagent/notebook/agent_team.py:414-418 | Python's normalisation of a slice bound lands within the sequence |
| Citations.PySlice | 2-ai_multiagent/notebook/agent_team.py:414-418 | in-range increasing bounds give the plain slice, decreasing ones the empty string, and the result is never longer than the input |
| Citations.PrintResponseWithCitations | 2-ai_multiagent/notebook/agent_team.py:399-419 | the loop returns `Render` of the reply: the fold over the annotations, then the tail after the last end index |
| Citations.WeaveWithoutCitations | 2-ai_multiagent/notebook/agent_team.py:405-408 | annotations with no `url_citation` leave the cursor at 0 with nothing emitted |
| Citations.RenderWithoutCitations | 2-ai_multiagent/notebook/agent_team.py:399-419 | with no `url_citation` annotations (or none at all) the reply's value comes back unchanged |
| Citations.RenderSkipsOtherKinds | 2-ai_multiagent/notebook/agent_team.py:408-409 | appending an annotation of another type changes nothing |
| Citations.RenderOneCitation | 2-ai_multiagent/notebook/agent_team.py:408-419 | one citation gives the text before its start, the link, then the text after its end |
| Citations.WeaveLast | 2-ai_multiagent/notebook/agent_team.py:407-416 | the cursor after the fold is the end index of the last citation, or 0 |
| Citations.UnlinkedPrefix | 2-ai_multiagent/notebook/agent_team.py:408-419 | for well-placed citations, replacing each link by the span it covers rebuilds the value up to the last end |
| Citations.UnlinkRoundTrip | 2-ai_multiagent/notebook/agent_team.py:408-419 | for in-bounds, ordered, non-overlapping citations, replacing each link by the span it covers gives back the original value |
| Citations.DecreasingCitationsRepeatText | 2-ai_multiagent/notebook/agent_team.py:407-418 | a negative start counts from the end, and a citation starting before the previous end repeats text: "abcdef" with spans (-2,5) and (2,3) renders as "abcd[x](u)[y](v)def" |

## Left out

- Remote service: the Azure SDK calls (`create_agent`, `create_thread`, `create_message`,
  `create_and_process_run`, `list_messages`, `delete_agent`) are the logging class
  `ProjectClient`. Each run's outcome is an oracle of how many runs came before: the
  `create_task` calls the agent made and the last agent text message. The SDK's internal
  polling and message listing are not modelled.
- Tool calls: the service makes an agent's `create_task` calls while its run is in
  flight. The model applies them in call order right after the run returns, which has the
  same effect on the queue. Only the delegation functions are modelled as tools.
- Reply truthiness: `text_message and text_message.text` is modelled as "the reply is
  present and its text is non-empty". An SDK text object that is truthy with empty text is
  not modelled.
- Reply oracle: each run's reply is an oracle answer of its own, not read from the thread.
  In Python `get_last_text_message_by_role` reads the whole thread. Once an agent has
  replied on it, the lookup is never empty, and a run that adds no text hands back the
  previous agent's reply, which is then recorded again under the new agent's name. The
  model allows a missing reply after replies exist, and a stale reply is just one of the
  answers the oracle may give.
- Failing remote calls: no call on `ProjectClient` fails, but every awaited SDK call can
  raise in Python and leave partial state behind. The model does not capture these paths:
  - `create_team_leader` sets `_team_leader` (line 175) before `create_agent` returns
    (line 182). A failure there leaves a leader with no agent, so every later
    `create_team_leader` fails (line 170) and `assemble_team` skips leader creation
    (line 210). In the model a leader, once set, is always bound.
  - A `create_and_process_run` that raises (line 312) leaves the remaining tasks in the
    shared `_tasks`, and the next `process_request` serves them.
  - Failures of `create_thread`, `create_message`, `list_messages` and `delete_agent`,
    and a failure partway through `assemble_team` or `dismantle_team`, are not modelled.
- Coroutine re-awaiting of `agent_instance` in `process_request` and `dismantle_team`: an
  instance is a plain identifier here.
- Configuration: the YAML loading of the templates (lines 83-96) is not modelled.
  `str.format` of each template is an uninterpreted function of its fields (`Config`), and
  the configuration is fixed when a team is registered.
- Toolsets: `AsyncToolSet`/`AsyncFunctionTool` are sets of tool names. Python mutates a
  caller's toolset object in place when it adds the delegation functions. The model builds
  a new set, so aliasing of toolsets is not captured. The default toolset of
  `_create_team_leader` is modelled as exactly the delegation tools.
- Malformed replies in `print_response_with_citations`: the typed `MessageText` and
  `Annotation` records cannot express the Python errors. A missing `value`, `type`,
  `start_index`, `end_index`, `text` or `url_citation` key raises `KeyError` (lines
  401-412). An `annotations` key present with the value `None` raises `TypeError` at
  line 407, while the model's `None` is an absent key. A `None` slice bound is not
  representable either, as the bounds are integers.
- The non-string `team_name` rejected by the `isinstance` check does not arise: the name
  is a `string`.
- The asserts that `project_client` is not None (lines 169, 208, 244, 275) always hold: a
  team's client is never null after registration. A missing client is rejected at
  registration.
- Python `assert` failures are `Result`/`Outcome` errors: `LeaderAlreadyCreated`,
  `NoTeamLeader`.
- AgentTeams.AgentTeam.ProcessRequest: the loop need not terminate, so it runs for at most
  `fuel` iterations. When the fuel runs out with tasks still queued, it returns
  `OutOfFuel`, which the Python code never does.
- `print` logging, telemetry spans and concurrency between teams are not modelled. The
  loop itself is sequential.
- `_thread_id` starts as `""` in Python. Here it is `None` until the first request.
- The promptflow entry points, web helpers, polling scripts, plotting output and the
  autogen wrapper elsewhere in the repository are not part of this model.
