/**
 * A pure specification of `process_request`'s loop: one `Step` per popped
 * task and `Drain` for up to `fuel` steps. The remote service's answers come
 * from an oracle `Env.outcomes`, indexed by how many runs came before.
 */
module Orchestration {
  import opened Common

  /** Identifier of a remote agent (`agent_instance.id`). */
  type AgentId = nat

  /** The literal name that `_get_member_by_name` and the completeness rule treat as the leader. */
  const LeaderName: string := "TeamLeader"

  /** Requestor of the seed task and of every completeness task. */
  const UserRequestor: string := "user"

  /** A queued `_AgentTask`. */
  datatype Task = Task(recipient: string, description: string, requestor: string)

  /** One `create_task` tool call an agent makes while its run is in flight. */
  datatype Delegation = Delegation(teamName: string, recipient: string, request: string, requestor: string)

  /** The last agent text message on the thread; `assistantId` is absent when the message does not carry one. */
  datatype Reply = Reply(text: string, assistantId: Option<AgentId>)

  /** What one `create_and_process_run` leads to: the tool calls made during it and the last agent reply. */
  datatype RunOutcome = RunOutcome(toolCalls: seq<Delegation>, reply: Option<Reply>)

  /** A recorded `{assistant_id, text, agent}`. */
  datatype Response = Response(assistantId: AgentId, text: string, agent: string)

  /** What the loop reads of a member: its name and its bound remote agent. */
  datatype MemberView = MemberView(name: string, instance: Option<AgentId>)

  /** The answer of `_get_member_by_name`: the leader, the member at an index of the list, or `None`. */
  datatype Lookup = LeaderHit | MemberAt(index: nat) | Missing

  /** The first index holding `name`, if any. */
  function FirstIndexOf(names: seq<string>, name: string): (r: Option<nat>)
    ensures r.Some? ==> r.value < |names| && names[r.value] == name && name !in names[..r.value]
    ensures r.None? <==> name !in names
  {
    if names == [] then None
    else if names[0] == name then Some(0)
    else
      match FirstIndexOf(names[1..], name)
      case None => None
      case Some(k) =>
        assert names[..k + 1] == [names[0]] + names[1..][..k];
        Some(k + 1)
  }

  /**
   * `_get_member_by_name`: the literal "TeamLeader" answers the leader;
   * any other name the first member in insertion order with that name.
   */
  function MemberByName(names: seq<string>, name: string): (r: Lookup)
    ensures r.LeaderHit? <==> name == LeaderName
    ensures r.MemberAt? ==> r.index < |names| && names[r.index] == name && name !in names[..r.index]
    ensures r.Missing? <==> name != LeaderName && name !in names
  {
    if name == LeaderName then LeaderHit
    else
      match FirstIndexOf(names, name)
      case Some(i) => MemberAt(i)
      case None => Missing
  }

  /** The members' names, in insertion order. */
  function Names(vs: seq<MemberView>): seq<string>
  {
    seq(|vs|, i requires 0 <= i < |vs| => vs[i].name)
  }

  /** The task `_create_task` builds from a tool call. */
  function TaskOf(d: Delegation): Task {
    Task(d.recipient, d.request, d.requestor)
  }

  /** The tasks that a sequence of `_create_task` calls appends: those naming a registered team. */
  function Accepted(registered: set<string>, calls: seq<Delegation>): seq<Task>
  {
    if calls == [] then []
    else
      var d := calls[|calls| - 1];
      Accepted(registered, calls[..|calls| - 1]) + (if d.teamName in registered then [TaskOf(d)] else [])
  }

  /** Everything the loop reads but does not change. */
  datatype Env = Env(
    registered: set<string>,        // names in `_teams`
    leader: MemberView,             // `_team_leader`
    members: seq<MemberView>,       // `_members`
    completeness: string,           // TEAM_LEADER_TASK_COMPLETENESS_CHECK_INSTRUCTIONS
    outcomes: nat -> RunOutcome)    // the remote service's answer to the n-th run

  /**
   * The loop's state: the task queue, the recorded responses, the runs so far
   * (counting those before the loop), the agents this loop has run, in run
   * order, and the messages posted on the thread.
   */
  datatype LoopState = LoopState(queue: seq<Task>, responses: seq<Response>, runs: nat, ran: seq<AgentId>, posted: seq<string>)

  /** The member a recipient name resolves to. */
  function Resolve(env: Env, name: string): Option<MemberView>
  {
    match MemberByName(Names(env.members), name)
    case LeaderHit => Some(env.leader)
    case MemberAt(i) => Some(env.members[i])
    case Missing => None
  }

  /** The head task's recipient resolves to a member with a bound remote agent, so a run happens. */
  predicate Dispatches(env: Env, st: LoopState)
    requires st.queue != []
  {
    var agent := Resolve(env, st.queue[0].recipient);
    agent.Some? && agent.value.instance.Some?
  }

  /** The tasks added by tool calls while the head task runs. */
  function Delegated(env: Env, st: LoopState): seq<Task>
    requires st.queue != []
  {
    if Dispatches(env, st) then Accepted(env.registered, env.outcomes(st.runs).toolCalls) else []
  }

  /** The record a run of `agent` adds: one for a reply with non-empty text, none otherwise. */
  function Recorded(reply: Option<Reply>, agent: MemberView): seq<Response>
    requires agent.instance.Some?
  {
    if reply.Some? && reply.value.text != "" then
      [Response(reply.value.assistantId.GetOr(agent.instance.value), reply.value.text, agent.name)]
    else []
  }

  /** The task re-injected when the queue runs dry after a non-leader task. */
  function CompletenessTask(env: Env): Task {
    Task(env.leader.name, env.completeness, UserRequestor)
  }

  /** One iteration of `while self._tasks`. */
  function Step(env: Env, st: LoopState): LoopState
    requires st.queue != []
  {
    var task := st.queue[0];
    var pending := st.queue[1..] + Delegated(env, st);
    var queue := if pending == [] && task.recipient != LeaderName then [CompletenessTask(env)] else pending;
    var posted := st.posted + [task.description];
    if Dispatches(env, st) then
      var agent := Resolve(env, task.recipient).value;
      LoopState(queue, st.responses + Recorded(env.outcomes(st.runs).reply, agent), st.runs + 1, st.ran + [agent.instance.value], posted)
    else
      LoopState(queue, st.responses, st.runs, st.ran, posted)
  }

  /** The loop run for at most `fuel` iterations; it has ended when the queue is empty. */
  function Drain(env: Env, st: LoopState, fuel: nat): LoopState
    decreases fuel
  {
    if st.queue == [] || fuel == 0 then st else Drain(env, Step(env, st), fuel - 1)
  }

  /** One iteration of the loop, when there is a task and fuel left. */
  lemma {:induction false} DrainUnfolds(env: Env, st: LoopState, fuel: nat)
    requires st.queue != [] && fuel > 0
    ensures Drain(env, st, fuel) == Drain(env, Step(env, st), fuel - 1)
  {
  }

  // ---------------------------------------------------------------- delegation

  /** N tool calls naming a registered team append exactly N tasks, in call order. */
  lemma {:induction false} AcceptedAllRegistered(registered: set<string>, calls: seq<Delegation>)
    requires forall k :: 0 <= k < |calls| ==> calls[k].teamName in registered
    ensures |Accepted(registered, calls)| == |calls|
    ensures forall k :: 0 <= k < |calls| ==> Accepted(registered, calls)[k] == TaskOf(calls[k])
  {
    if calls != [] {
      AcceptedAllRegistered(registered, calls[..|calls| - 1]);
    }
  }

  /** Tool calls naming no registered team append nothing. */
  lemma {:induction false} AcceptedNoneRegistered(registered: set<string>, calls: seq<Delegation>)
    requires forall k :: 0 <= k < |calls| ==> calls[k].teamName !in registered
    ensures Accepted(registered, calls) == []
  {
    if calls != [] {
      AcceptedNoneRegistered(registered, calls[..|calls| - 1]);
    }
  }

  // ---------------------------------------------------------------- one step

  /**
   * `pop(0)` then appends: the head task's description is posted, and the
   * tasks still waiting keep their order at the front of the queue.
   */
  lemma {:induction false} StepKeepsPendingOrder(env: Env, st: LoopState)
    requires st.queue != []
    ensures Step(env, st).posted == st.posted + [st.queue[0].description]
    ensures |Step(env, st).queue| >= |st.queue| - 1
    ensures Step(env, st).queue[..|st.queue| - 1] == st.queue[1..]
  {
  }

  /**
   * The completeness check: when nothing is left after a task whose recipient
   * is not "TeamLeader", exactly one leader task with the completeness text is
   * queued; the queue ends empty only after a "TeamLeader" task.
   */
  lemma {:induction false} CompletenessCheck(env: Env, st: LoopState)
    requires st.queue != []
    ensures st.queue[1..] + Delegated(env, st) == [] && st.queue[0].recipient != LeaderName
            ==> Step(env, st).queue == [CompletenessTask(env)]
    ensures Step(env, st).queue == []
            <==> st.queue[1..] + Delegated(env, st) == [] && st.queue[0].recipient == LeaderName
    ensures Step(env, st).queue != [] && st.queue[1..] + Delegated(env, st) != []
            ==> Step(env, st).queue == st.queue[1..] + Delegated(env, st)
  {
  }

  /** A recipient that resolves to nobody (or to a member without a remote agent) is dropped: no run, no record. */
  lemma {:induction false} UnresolvedRecipientDropped(env: Env, st: LoopState)
    requires st.queue != []
    requires !Dispatches(env, st)
    ensures Step(env, st).responses == st.responses
    ensures Step(env, st).runs == st.runs && Step(env, st).ran == st.ran
    ensures Step(env, st).posted == st.posted + [st.queue[0].description]
    ensures |Step(env, st).queue| == if |st.queue| == 1 && st.queue[0].recipient != LeaderName then 1 else |st.queue| - 1
  {
  }

  // ---------------------------------------------------------------- whole loop

  /** A recorded response carries non-empty text and the name of the leader or of a member. */
  predicate Attributed(env: Env, r: Response) {
    r.text != "" && (r.agent == env.leader.name || r.agent in Names(env.members))
  }

  /** `history` extends `st`: earlier responses and posts kept, new responses attributed and no more than the new runs. */
  predicate Extends(env: Env, st: LoopState, history: LoopState) {
    && |history.responses| >= |st.responses| && history.responses[..|st.responses|] == st.responses
    && |history.posted| >= |st.posted| && history.posted[..|st.posted|] == st.posted
    && history.runs >= st.runs
    && |history.responses| - |st.responses| <= history.runs - st.runs
    && forall k :: |st.responses| <= k < |history.responses| ==> Attributed(env, history.responses[k])
  }

  /**
   * A step records a response exactly when the recipient resolves to a member
   * with a bound agent and the reply has non-empty text; the record carries
   * the reply's assistant id (else the agent's), its text and the resolved
   * member's name. So a step keeps the history and adds at most one
   * attributed response, and only when it runs an agent.
   */
  lemma {:induction false} StepRecordsExactly(env: Env, st: LoopState)
    requires st.queue != []
    ensures var reply := env.outcomes(st.runs).reply;
      |Step(env, st).responses| == |st.responses| + 1
      <==> Dispatches(env, st) && reply.Some? && reply.value.text != ""
    ensures |Step(env, st).responses| == |st.responses| + 1 ==>
      var reply := env.outcomes(st.runs).reply.value;
      var agent := Resolve(env, st.queue[0].recipient).value;
      Step(env, st).responses == st.responses + [Response(reply.assistantId.GetOr(agent.instance.value), reply.text, agent.name)]
    ensures |Step(env, st).responses| != |st.responses| + 1 ==> Step(env, st).responses == st.responses
    ensures Extends(env, st, Step(env, st))
  {
    var next := Step(env, st);
    if Dispatches(env, st) && |next.responses| > |st.responses| {
      match MemberByName(Names(env.members), st.queue[0].recipient)
      case LeaderHit =>
      case MemberAt(i) => assert Names(env.members)[i] == env.members[i].name;
      case Missing =>
    }
  }

  /** `Extends` is transitive. */
  lemma {:induction false} ExtendsTrans(env: Env, a: LoopState, b: LoopState, c: LoopState)
    requires Extends(env, a, b) && Extends(env, b, c)
    ensures Extends(env, a, c)
  {
    assert c.responses[..|a.responses|] == c.responses[..|b.responses|][..|a.responses|];
    assert c.posted[..|a.posted|] == c.posted[..|b.posted|][..|a.posted|];
    forall k | |a.responses| <= k < |c.responses|
      ensures Attributed(env, c.responses[k])
    {
      if k < |b.responses| {
        assert c.responses[k] == c.responses[..|b.responses|][k];
      }
    }
  }

  /**
   * Over the whole loop, earlier responses and posted messages are kept, each
   * new response has non-empty text and names the leader or a member, and
   * there are no more new responses than runs.
   */
  lemma {:induction false} DrainRecordsReplies(env: Env, st: LoopState, fuel: nat)
    ensures Extends(env, st, Drain(env, st, fuel))
    decreases fuel
  {
    if st.queue != [] && fuel != 0 {
      var next := Step(env, st);
      assert Extends(env, st, next) by { StepRecordsExactly(env, st); }
      DrainRecordsReplies(env, next, fuel - 1);
      ExtendsTrans(env, st, next, Drain(env, next, fuel - 1));
    } else {
      assert st.responses[..|st.responses|] == st.responses;
      assert st.posted[..|st.posted|] == st.posted;
    }
  }

  /** Posted messages only grow, at the end. */
  lemma {:induction false} DrainKeepsPosted(env: Env, st: LoopState, fuel: nat)
    ensures |Drain(env, st, fuel).posted| >= |st.posted|
    ensures Drain(env, st, fuel).posted[..|st.posted|] == st.posted
  {
    DrainRecordsReplies(env, st, fuel);
  }

  /** From position `from` on, `posted` holds the descriptions of `tasks`, in order. */
  predicate Served(posted: seq<string>, from: nat, tasks: seq<Task>)
    decreases |tasks|
  {
    if tasks == [] then |posted| >= from
    else |posted| > from && posted[from] == tasks[0].description && Served(posted, from + 1, tasks[1..])
  }

  /**
   * `n` steps serve the first `n` queued tasks in queue order: their
   * descriptions are posted to the thread one after the other.
   */
  lemma {:induction false} DrainServesInOrder(env: Env, st: LoopState, fuel: nat, n: nat)
    requires n <= fuel && n <= |st.queue|
    ensures Served(Drain(env, st, fuel).posted, |st.posted|, st.queue[..n])
  {
    var final := ServesInOrder(env, st, fuel, st.queue[..n]);
  }

  /**
   * The induction behind `DrainServesInOrder`, over the tasks still to be
   * served: it names the final state and keeps the earlier messages.
   */
  lemma {:induction false} ServesInOrder(env: Env, st: LoopState, fuel: nat, tasks: seq<Task>) returns (final: LoopState)
    requires |tasks| <= fuel && |tasks| <= |st.queue| && st.queue[..|tasks|] == tasks
    ensures final == Drain(env, st, fuel)
    ensures |final.posted| >= |st.posted| && final.posted[..|st.posted|] == st.posted
    ensures Served(final.posted, |st.posted|, tasks)
    decreases |tasks|
  {
    if tasks == [] {
      final := Drain(env, st, fuel);
      DrainKeepsPosted(env, st, fuel);
    } else {
      var next := ServeHead(env, st, tasks);
      final := ServesInOrder(env, next, fuel - 1, tasks[1..]);
      ServedAfterStep(st.posted, next.posted, final.posted, tasks);
      DrainAfterHead(env, st, fuel, final);
    }
  }

  /** One iteration of the loop keeps the rest of the tasks to be served at the head of the queue. */
  lemma {:induction false} ServeHead(env: Env, st: LoopState, tasks: seq<Task>) returns (next: LoopState)
    requires tasks != [] && |tasks| <= |st.queue| && st.queue[..|tasks|] == tasks
    ensures next == Step(env, st)
    ensures next.posted == st.posted + [tasks[0].description]
    ensures |next.queue| >= |tasks| - 1 && next.queue[..|tasks| - 1] == tasks[1..]
  {
    next := Step(env, st);
    StepKeepsPendingOrder(env, st);
    assert tasks[0] == st.queue[..|tasks|][0];
    assert next.queue[..|tasks| - 1] == next.queue[..|st.queue| - 1][..|tasks| - 1] == st.queue[1..][..|tasks| - 1];
    assert st.queue[1..][..|tasks| - 1] == st.queue[..|tasks|][1..];
  }

  /** What the rest of the loop reaches after one step is what the whole loop reaches. */
  lemma {:induction false} DrainAfterHead(env: Env, st: LoopState, fuel: nat, final: LoopState)
    requires st.queue != [] && fuel > 0
    requires final == Drain(env, Step(env, st), fuel - 1)
    ensures final == Drain(env, st, fuel)
  {
    DrainUnfolds(env, st, fuel);
  }

  /** The sequence reasoning behind `DrainServesInOrder`: the head task posted, then the rest served, is all served in order. */
  lemma {:induction false} ServedAfterStep(before: seq<string>, after: seq<string>, posted: seq<string>, tasks: seq<Task>)
    requires tasks != [] && after == before + [tasks[0].description]
    requires |posted| >= |after| && posted[..|after|] == after
    requires Served(posted, |after|, tasks[1..])
    ensures Served(posted, |before|, tasks)
    ensures |posted| >= |before| && posted[..|before|] == before
  {
    var p := |before|;
    assert |after| == p + 1;
    assert posted[p] == tasks[0].description by {
      assert posted[p] == posted[..p + 1][p] == after[p];
    }
    assert posted[..p] == before by {
      assert posted[..p] == posted[..p + 1][..p];
      assert after[..p] == before;
    }
  }

  /**
   * With a leader not named "TeamLeader" who is not also a member, a queue of
   * tasks addressed to the leader never empties and records nothing: lookup
   * misses, and each miss re-injects a completeness task for the same name.
   */
  lemma {:induction false} NonDefaultLeaderNeverDrains(env: Env, st: LoopState, fuel: nat)
    requires env.leader.name != LeaderName && env.leader.name !in Names(env.members)
    requires st.queue != [] && forall k :: 0 <= k < |st.queue| ==> st.queue[k].recipient == env.leader.name
    ensures Drain(env, st, fuel).queue != []
    ensures Drain(env, st, fuel).responses == st.responses
    ensures Drain(env, st, fuel).runs == st.runs && Drain(env, st, fuel).ran == st.ran
    decreases fuel
  {
    if fuel != 0 {
      assert Resolve(env, st.queue[0].recipient) == None;
      assert Delegated(env, st) == [];
      var next := Step(env, st);
      var rest := st.queue[1..];
      assert next.queue == if rest == [] then [CompletenessTask(env)] else rest by {
        assert rest + [] == rest;
      }
      assert next.responses == st.responses && next.runs == st.runs && next.ran == st.ran;
      NonDefaultLeaderNeverDrains(env, next, fuel - 1);
    }
  }

  /**
   * The team of `DelegationScenario`: "TeamLeader" (agent 0) leads a "Writer"
   * (agent 1) in the registered team "alpha". The leader's first run delegates
   * one task to the Writer and answers "plan"; the Writer answers "draft"
   * under assistant id 7; every later run answers with empty text.
   */
  function ScenarioEnv(completeness: string): Env {
    Env({"alpha"}, MemberView(LeaderName, Some(0)), [MemberView("Writer", Some(1))], completeness,
        n => if n == 0 then RunOutcome([Delegation("alpha", "Writer", "draft it", LeaderName)], Some(Reply("plan", None)))
             else if n == 1 then RunOutcome([], Some(Reply("draft", Some(7))))
             else RunOutcome([], Some(Reply("", None))))
  }

  /**
   * The leader "TeamLeader" delegates one task to "Writer"; the Writer's task
   * empties the queue, so one completeness task goes back to the leader, whose
   * run neither delegates nor answers with text (its reply is empty): the
   * loop ends after three steps, having run the leader, the Writer and the
   * leader again, with the leader's and then the Writer's reply.
   */
  lemma {:induction false} DelegationScenario(request: string, completeness: string, fuel: nat)
    requires fuel >= 3
    ensures var fin := Drain(ScenarioEnv(completeness), LoopState([Task(LeaderName, request, UserRequestor)], [], 0, [], []), fuel);
            && fin.queue == []
            && fin.responses == [Response(0, "plan", LeaderName), Response(7, "draft", "Writer")]
            && fin.posted == [request, "draft it", completeness]
            && fin.runs == 3 && fin.ran == [0, 1, 0]
  {
    var env := ScenarioEnv(completeness);
    var s0 := LoopState([Task(LeaderName, request, UserRequestor)], [], 0, [], []);
    ScenarioLeaderDelegates(completeness, s0);
    var s1 := Step(env, s0);
    ScenarioWriterDrafts(completeness, s1);
    var s2 := Step(env, s1);
    ScenarioLeaderConcludes(completeness, s2);
    var s3 := Step(env, s2);
    DrainUnfolds(env, s0, fuel);
    DrainUnfolds(env, s1, fuel - 1);
    DrainUnfolds(env, s2, fuel - 2);
  }

  /** The scenario's first step: the leader's run delegates "draft it" to the Writer and answers "plan". */
  lemma {:induction false} ScenarioLeaderDelegates(completeness: string, st: LoopState)
    requires |st.queue| == 1 && st.queue[0].recipient == LeaderName && st.runs == 0
    ensures Step(ScenarioEnv(completeness), st)
            == LoopState([Task("Writer", "draft it", LeaderName)], st.responses + [Response(0, "plan", LeaderName)],
                         1, st.ran + [0], st.posted + [st.queue[0].description])
  {
    var calls := [Delegation("alpha", "Writer", "draft it", LeaderName)];
    assert ScenarioEnv(completeness).outcomes(0) == RunOutcome(calls, Some(Reply("plan", None)));
    assert calls[..0] == [];
    assert Accepted({"alpha"}, calls) == [Task("Writer", "draft it", LeaderName)];
  }

  /** The second step: the Writer answers "draft" and the emptied queue gets the completeness task. */
  lemma {:induction false} ScenarioWriterDrafts(completeness: string, st: LoopState)
    requires st.queue == [Task("Writer", "draft it", LeaderName)] && st.runs == 1
    ensures Step(ScenarioEnv(completeness), st)
            == LoopState([Task(LeaderName, completeness, UserRequestor)], st.responses + [Response(7, "draft", "Writer")],
                         2, st.ran + [1], st.posted + ["draft it"])
  {
    var env := ScenarioEnv(completeness);
    assert env.outcomes(1) == RunOutcome([], Some(Reply("draft", Some(7))));
    assert Names(env.members) == ["Writer"];
    assert MemberByName(Names(env.members), "Writer") == MemberAt(0);
  }

  /** The third step: the leader runs again, delegates nothing and records nothing, and the queue ends empty. */
  lemma {:induction false} ScenarioLeaderConcludes(completeness: string, st: LoopState)
    requires |st.queue| == 1 && st.queue[0].recipient == LeaderName && st.runs == 2
    ensures Step(ScenarioEnv(completeness), st) == LoopState([], st.responses, 3, st.ran + [0], st.posted + [st.queue[0].description])
  {
    assert ScenarioEnv(completeness).outcomes(2) == RunOutcome([], Some(Reply("", None)));
  }
}
