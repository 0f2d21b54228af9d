/** The durable workflow engine as a transition system.

    What survives a crash is `Shared`: the tables, the entries of the external
    system, and a history of what was decided, granted and posted. A driver is
    one call of `resume`: its in-memory copy of the run, its event buffer and
    its program point. Each driver step makes at most one access to shared
    state, so a crash or another driver can come between any two of them.
    Whatever the program does not determine (model answers, connector outcomes,
    approval callbacks) is a `Choice`. */
module Machine {
  import opened Core
  import opened StoreSpec
  import P = Policies

  /** The registries the engine was built with; `gate` is the policy engine's
      `check`. */
  datatype Env = Env(
    workflows: map<Id, Workflow>, tools: map<string, Tool>, agents: map<string, Agent>,
    gate: P.Request -> Effect)

  // ---- history ------------------------------------------------------------

  datatype Caller = ByNode | ByAgent(agent: string)

  datatype Act =
    /** The policy gate answered `effect`. */
    | Decided(who: nat, run: Id, step: Id, caller: Caller, tool: string, args: Dict, ctx: Dict, effect: Effect)
    /** A driver saw approval row `approval` as granted. */
    | Granted(who: nat, run: Id, step: Id, approval: nat)
    /** Somebody resolved an approval row. */
    | Resolved(approval: nat, approved: bool)
    /** A mutating operation was handed to the connector, for a call that the
        gate saw with arguments `args` and context `ctx`. */
    | Posted(who: nat, run: Id, step: Id, caller: Caller, tool: string, args: Dict, ctx: Dict, key: Json, value: Json)
    /** A read-only operation of a workflow node returned `value`. */
    | Observed(who: nat, run: Id, step: Id, tool: string, args: Dict, ctx: Dict, value: Json)
    /** The model answered, for an agent node. */
    | Heard(who: nat, run: Id, step: Id, reply: Response)

  datatype Shared = Shared(tables: Tables, entries: map<Json, Json>, log: seq<Act>)

  // ---- drivers ------------------------------------------------------------

  datatype Call = Call(tool: string, args: Dict)
  datatype CallResult = CallResult(tool: string, ok: bool, value: Json)
  datatype Body = Final(output: Json) | ToolCalls(calls: seq<Call>)
  datatype Response = Response(cost: real, body: Body)

  /** The step being run, on behalf of which step of the main walk, in which
      attempt, and whether as its compensation. */
  datatype Frame = Frame(step: Id, main: Id, attempt: nat, comp: bool)

  datatype Purpose = ForNode | ForCall(tool: string, args: Dict)

  datatype Pc =
    | Top(at: Id)                        // the while test of the drive loop
    | Ready(f: Frame)                    // about to run the step once
    | Think(f: Frame, i: nat, task: Dict, scratch: seq<CallResult>)
    | Calls(f: Frame, i: nat, task: Dict, calls: seq<Call>, done: seq<CallResult>)
    | Calling(f: Frame, i: nat, task: Dict, calls: seq<Call>, done: seq<CallResult>, invoked: bool)
    | Asking(f: Frame, p: Purpose)       // about to look for an approval
    | Requesting(f: Frame, p: Purpose)   // none found: about to insert one
    | Pausing(f: Frame)                  // about to commit WAITING_APPROVAL
    | Answering(f: Frame, p: Purpose, approval: nat)  // approval_fn about to answer
    | Executing(f: Frame, tool: string, args: Dict, invoked: bool)
    | Recording(f: Frame, tool: string, result: Json)
    | Advancing(f: Frame, next: Option<Id>)           // about to commit the step
    | Failing(main: Id)                  // about to commit FAILED

  datatype Driver = Driver(id: nat, sync: bool, run: Run, buffer: seq<Event>, pc: Pc)

  /** Exceptions leaving a step: ConnectorError, PolicyDenied, the pause signal,
      and everything the drive loop does not catch. */
  datatype Fault = Connector | Refused | Paused | Broken

  datatype End = EndPaused | EndFailed | EndSucceeded | EndEscaped

  datatype Outcome = Live(d: Driver) | Ended(how: End)

  datatype Turn = Turn(s: Shared, o: Outcome)

  datatype Choice =
    | Proceed
    | Respond(r: Response)   // the model answers
    | Invoke                 // the connector starts the operation once more
    | Return(v: Json)        // the operation's result arrives
    | FailCall               // the connector gives up: ConnectorError
    | Throw                  // an exception nobody expects
    | Answer(granted: bool)  // approval_fn answers

  // ---- lookups --------------------------------------------------------------

  const NO_STEP := Step(UnknownNode, (c: Dict) => Option<Dict>.None, 1, None, None)
  const NO_WORKFLOW := Workflow(map[], "", 0.0, 0)

  function WorkflowOf(env: Env, wf: Id): Workflow {
    if wf in env.workflows then env.workflows[wf] else NO_WORKFLOW
  }

  function StepOf(env: Env, w: Id, s: Id): Step {
    var wf := WorkflowOf(env, w);
    if s in wf.steps then wf.steps[s] else NO_STEP
  }

  /** The idempotency key of a workflow tool node. */
  function EffectKey(run: Id, step: Id, tool: string): string {
    run + ":" + step + ":" + tool
  }

  /** The key the external system deduplicates on. */
  function OpKey(args: Dict): Json {
    if Truthy(Get(args, "_idempotency_key")) then args["_idempotency_key"]
    else if Truthy(Get(args, "invoice_number")) then args["invoice_number"]
    else Str("")
  }

  function KeyedArgs(run: Id, step: Id, tool: string, args: Dict): Dict {
    args["_idempotency_key" := Str(EffectKey(run, step, tool))]
  }

  /** The arguments a mutating operation really gets: a workflow node adds its
      idempotency key, an agent's call goes out as the model wrote it. */
  function CallArgs(run: Id, step: Id, caller: Caller, tool: string, args: Dict): Dict {
    if caller == ByNode then KeyedArgs(run, step, tool, args) else args
  }

  function SystemAgent(tool: string): Agent {
    Agent("system", [tool], 8)
  }

  function Gate(env: Env, a: Agent, t: Tool, args: Dict, ctx: Dict): Effect {
    env.gate(P.Request(a, t, args, ctx))
  }

  function ResultOf(ctx: Dict): Json {
    if "result" in ctx then ctx["result"] else Obj(ctx)
  }

  predicate OverBudget(wf: Workflow, run: Run) {
    run.cost > wf.budget || run.steps > wf.maxSteps
  }

  // ---- what one step does -----------------------------------------------------

  /** The one access to the tables a step may make. */
  datatype TableOp =
    | Nothing
    | Commit                                        // checkpoint run and buffer
    | AddApproval(step: Id)
    | SettleApproval(approval: nat, granted: bool)
    | Record(step: Id, tool: string, result: Json)

  datatype Goal = Goto(pc: Pc) | Stop(how: End)

  /** History entries, table access, events, amounts booked on the run, context
      entry, new run fields, and where control goes. `late` events are emitted
      after a commit. */
  datatype Plan = Plan(
    acts: seq<Act>, op: TableOp, events: seq<Event>, late: seq<Event>, cost: real, steps: nat,
    keep: Option<(Id, Json)>, status: RunStatus, cursor: Option<Id>, result: Option<Json>, goal: Goal)

  function Idle(d: Driver): Plan {
    Plan([], Nothing, [], [], 0.0, 0, None, d.run.status, d.run.cursor, d.run.result, Goto(d.pc))
  }

  function Ev(d: Driver, kind: Kind, step: Option<Id>, cost: real, payload: Json): Event {
    Event(d.run.info.id, d.run.info.tenant, kind, step, cost, payload)
  }

  function RunAfter(d: Driver, p: Plan): Run {
    d.run.(status := p.status, cursor := p.cursor, result := p.result,
           cost := d.run.cost + p.cost, steps := d.run.steps + p.steps,
           context := if p.keep.Some? then d.run.context[p.keep.value.0 := p.keep.value.1] else d.run.context)
  }

  function TablesAfter(t: Tables, d: Driver, p: Plan): Tables {
    match p.op
    case Nothing => t
    case Commit => OrElse(Checkpoint(t, RunAfter(d, p), d.buffer + p.events), t)
    case AddApproval(step) => OrElse(CreateApproval(t, d.run.info.tenant, d.run.info.id, step), t)
    case SettleApproval(a, granted) => OrElse(ResolveApproval(t, d.run.info.tenant, a, granted), t)
    case Record(step, tool, result) =>
      RecordEffect(t, EffectKey(d.run.info.id, step, tool),
                   EffectRow(d.run.info.id, d.run.info.tenant, step, tool, result))
  }

  function BufferAfter(d: Driver, p: Plan): seq<Event> {
    (if p.op.Commit? then [] else d.buffer + p.events) + p.late
  }

  function Perform(s: Shared, d: Driver, p: Plan): Turn {
    Turn(Shared(TablesAfter(s.tables, d, p), s.entries, s.log + p.acts),
         match p.goal
         case Stop(how) => Ended(how)
         case Goto(pc) => Live(Driver(d.id, d.sync, RunAfter(d, p), BufferAfter(d, p), pc)))
  }

  // ---- exceptions ---------------------------------------------------------------

  function Compensate(env: Env, d: Driver, f: Frame, p: Plan): Plan {
    var c := StepOf(env, d.run.info.workflow, f.step).compensate;
    if c.None? || c.value == "" || c.value !in WorkflowOf(env, d.run.info.workflow).steps then
      p.(goal := Goto(Failing(f.main)))
    else
      p.(late := p.late + [Ev(d, Compensation, Some(c.value), 0.0, Str(f.step))],
         goal := Goto(Ready(Frame(c.value, f.main, 1, true))))
  }

  /** What an exception out of the step at `f` leads to: retry, compensation,
      failure, pause, or escape. Compensation swallows every exception. */
  function Raise(env: Env, d: Driver, f: Frame, e: Fault, p: Plan): Plan {
    if f.comp then
      p.(late := p.late + [Ev(d, CompensationFailed, Some(f.step), 0.0, Str(f.step))], goal := Goto(Failing(f.main)))
    else
      match e
      case Refused => p.(goal := Goto(Failing(f.main)))
      case Paused => p.(goal := Stop(EndPaused))
      case Broken => p.(goal := Stop(EndEscaped))
      case Connector =>
        var p1 := p.(late := p.late + [Ev(d, StepRetry, Some(f.step), 0.0, Str(f.step))]);
        if f.attempt < StepOf(env, d.run.info.workflow, f.step).maxAttempts then
          p1.(goal := Goto(Ready(f.(attempt := f.attempt + 1))))
        else Compensate(env, d, f, p1)
  }

  /** The step returned: commit it, or, as a compensation, go on to FAILED. */
  function Done(f: Frame, next: Option<Id>): Goal {
    Goto(if f.comp then Failing(f.main) else Advancing(f, next))
  }

  predicate CanCommit(s: Shared, d: Driver) {
    Owns(s.tables, d.run.info.tenant, d.run.info.id) && AllOf(d.buffer, d.run.info.tenant)
  }

  function PlanFailed(s: Shared, d: Driver): Plan {
    if !CanCommit(s, d) then Idle(d).(goal := Stop(EndEscaped))
    else
      Idle(d).(op := Commit, events := [Ev(d, Error, None, 0.0, Null)], status := Failed, goal := Stop(EndFailed))
  }

  // ---- the program points ---------------------------------------------------------

  function PlanTop(env: Env, s: Shared, d: Driver, at: Id): Plan {
    var wf := WorkflowOf(env, d.run.info.workflow);
    if at !in wf.steps then Idle(d).(goal := Stop(EndEscaped))
    else if OverBudget(wf, d.run) then PlanFailed(s, d)
    else
      Idle(d).(events := [Ev(d, StateTransition, Some(at), 0.0, Str(at))], steps := 1,
               goal := if wf.steps[at].maxAttempts < 1 then Stop(EndEscaped)
                       else Goto(Ready(Frame(at, at, 1, false))))
  }

  datatype Route = Route(ok: bool, hit: bool, next: Option<Id>)

  function Select(arms: seq<Arm>, otherwise: Option<Id>, ctx: Dict): Route {
    if arms == [] then Route(true, false, otherwise)
    else if arms[0].test.None? then Route(true, true, Some(arms[0].goto))
    else
      match arms[0].test.value(ctx)
      case None => Route(false, false, None)
      case Some(b) => if b then Route(true, true, Some(arms[0].goto)) else Select(arms[1..], otherwise, ctx)
  }

  /** The target of an edge as an event shows it. */
  function GotoOf(next: Option<Id>): Json {
    if next.Some? then Str(next.value) else Null
  }

  function PlanBranch(env: Env, d: Driver, f: Frame, arms: seq<Arm>): Plan {
    var r := Select(arms, StepOf(env, d.run.info.workflow, f.step).next, d.run.context);
    if !r.ok then Raise(env, d, f, Broken, Idle(d))
    else
      Idle(d).(events := if r.hit then [Ev(d, BranchTaken, Some(f.step), 0.0, GotoOf(r.next))] else [],
               goal := Done(f, r.next))
  }

  function PlanGate(env: Env, d: Driver, f: Frame, tool: Tool, args: Dict): Plan {
    var effect := Gate(env, SystemAgent(tool.name), tool, args, d.run.context);
    var p := Idle(d).(
      acts := [Decided(d.id, d.run.info.id, f.step, ByNode, tool.name, args, d.run.context, effect)],
      events := [Ev(d, PolicyDecision, Some(f.step), 0.0, Str(tool.name))]);
    match effect
    case Deny => Raise(env, d, f, Refused, p)
    case Allow => p.(goal := Goto(Executing(f, tool.name, args, false)))
    case RequireApproval => p.(goal := Goto(Asking(f, ForCall(tool.name, args))))
  }

  /** Resolve the arguments, consult the ledger for a mutating tool, then the
      policy gate. */
  function PlanTool(env: Env, s: Shared, d: Driver, f: Frame, name: string): Plan {
    var step := StepOf(env, d.run.info.workflow, f.step);
    var args := step.args(d.run.context);
    if name !in env.tools || args.None? then Raise(env, d, f, Broken, Idle(d))
    else
      var tool := env.tools[name].(name := name);
      var row := GetEffect(s.tables, d.run.info.tenant, EffectKey(d.run.info.id, f.step, name));
      if tool.sideEffect && row.Foreign? then Raise(env, d, f, Broken, Idle(d))
      else if tool.sideEffect && row.Found? && row.result != Null then
        Idle(d).(events := [Ev(d, ToolResultReplayed, Some(f.step), 0.0, row.result)],
                 keep := Some((f.step, row.result)), goal := Done(f, step.next))
      else PlanGate(env, d, f, tool, args.value)
  }

  function PlanAgent(env: Env, d: Driver, f: Frame, agent: string): Plan {
    var args := StepOf(env, d.run.info.workflow, f.step).args(d.run.context);
    if agent !in env.agents || args.None? then Raise(env, d, f, Broken, Idle(d))
    else
      var task := if args.value == map[] then map["email" := Obj(d.run.info.trigger)] else args.value;
      Idle(d).(goal := Goto(Think(f, 0, task, [])))
  }

  function PlanReady(env: Env, s: Shared, d: Driver, f: Frame): Plan {
    match StepOf(env, d.run.info.workflow, f.step).node
    case AgentNode(agent) => PlanAgent(env, d, f, agent)
    case ToolNode(tool) => PlanTool(env, s, d, f, tool)
    case BranchNode(arms) => PlanBranch(env, d, f, arms)
    case ApprovalNode => Idle(d).(goal := Goto(Asking(f, ForNode)))
    case TerminateNode => Idle(d).(goal := Done(f, None))
    case UnknownNode => Raise(env, d, f, Broken, Idle(d))
  }

  function AgentOf(env: Env, w: Id, f: Frame): Agent {
    match StepOf(env, w, f.step).node
    case AgentNode(a) => if a in env.agents then env.agents[a] else Agent("", [], 0)
    case _ => Agent("", [], 0)
  }

  function PlanThink(env: Env, d: Driver, pc: Pc, c: Choice): Plan
    requires pc.Think?
  {
    if AgentOf(env, d.run.info.workflow, pc.f).maxSteps <= pc.i || c.Throw? then Raise(env, d, pc.f, Broken, Idle(d))
    else if !c.Respond? then Idle(d)
    else
      var message := Ev(d, AgentMessage, None, c.r.cost, Null);
      var heard := Heard(d.id, d.run.info.id, pc.f.step, c.r);
      match c.r.body
      case ToolCalls(calls) =>
        Idle(d).(acts := [heard], events := [message], cost := c.r.cost, goal := Goto(Calls(pc.f, pc.i, pc.task, calls, [])))
      case Final(output) =>
        Idle(d).(acts := [heard], events := [message, Ev(d, AgentFinal, None, 0.0, output)], cost := c.r.cost,
                 keep := Some((pc.f.step, output)),
                 goal := Done(pc.f, StepOf(env, d.run.info.workflow, pc.f.step).next))
  }

  /** Gate the next call the model asked for. */
  function PlanCalls(env: Env, d: Driver, pc: Pc): Plan
    requires pc.Calls?
  {
    if pc.calls == [] then Idle(d).(goal := Goto(Think(pc.f, pc.i + 1, pc.task, pc.done)))
    else
      var call := pc.calls[0];
      if call.tool !in env.tools then Raise(env, d, pc.f, Broken, Idle(d))
      else
        var agent := AgentOf(env, d.run.info.workflow, pc.f);
        var effect := Gate(env, agent, env.tools[call.tool].(name := call.tool), call.args, d.run.context);
        var decided := Decided(d.id, d.run.info.id, pc.f.step, ByAgent(agent.name), call.tool, call.args,
                               d.run.context, effect);
        var ev := Ev(d, PolicyDecision, None, 0.0, Str(call.tool));
        if effect == Allow then
          Idle(d).(acts := [decided], events := [ev],
                   goal := Goto(Calling(pc.f, pc.i, pc.task, pc.calls, pc.done, false)))
        else
          Idle(d).(acts := [decided], events := [ev, Ev(d, ToolDenied, None, 0.0, Str(call.tool))],
                   goal := Goto(Calls(pc.f, pc.i, pc.task, pc.calls[1..],
                                      pc.done + [CallResult(call.tool, false, Null)])))
  }

  /** An operation handed to the connector; it lands some time later. */
  function Submit(d: Driver, step: Id, caller: Caller, tool: Tool, args: Dict): seq<Act> {
    if tool.sideEffect then
      var a := CallArgs(d.run.info.id, step, caller, tool.name, args);
      [Posted(d.id, d.run.info.id, step, caller, tool.name, args, d.run.context, OpKey(a), tool.post(a))]
    else []
  }

  /** The result an invoked operation returns: for a mutating tool the entry
      stored under its key, once it is there. */
  function Answered(s: Shared, tool: Tool, args: Dict, invoked: bool, v: Json): Option<Json> {
    if !invoked then None
    else if !tool.sideEffect then Some(v)
    else if OpKey(args) in s.entries then Some(s.entries[OpKey(args)])
    else None
  }

  function PlanCalling(env: Env, s: Shared, d: Driver, pc: Pc, c: Choice): Plan
    requires pc.Calling?
  {
    if pc.calls == [] || pc.calls[0].tool !in env.tools then Raise(env, d, pc.f, Broken, Idle(d))
    else
      var call := pc.calls[0];
      var tool := env.tools[call.tool].(name := call.tool);
      match c
      case Invoke =>
        Idle(d).(acts := Submit(d, pc.f.step, ByAgent(AgentOf(env, d.run.info.workflow, pc.f).name), tool, call.args),
                 goal := Goto(Calling(pc.f, pc.i, pc.task, pc.calls, pc.done, true)))
      case Return(v) =>
        var r := Answered(s, tool, call.args, pc.invoked, v);
        if r.None? then Idle(d)
        else
          Idle(d).(events := [Ev(d, ToolResult, None, tool.cost, r.value)], cost := tool.cost,
                   goal := Goto(Calls(pc.f, pc.i, pc.task, pc.calls[1..],
                                      pc.done + [CallResult(call.tool, true, r.value)])))
      case FailCall => Raise(env, d, pc.f, Connector, Idle(d))
      case _ => Idle(d)
  }

  /** The approval is settled: run the call, pass the approval node, or refuse. */
  function Settle(env: Env, d: Driver, f: Frame, purpose: Purpose, granted: bool, p: Plan): Plan {
    if !granted then Raise(env, d, f, Refused, p)
    else
      match purpose
      case ForNode => p.(goal := Done(f, StepOf(env, d.run.info.workflow, f.step).next))
      case ForCall(tool, args) => p.(goal := Goto(Executing(f, tool, args, false)))
  }

  function PlanRequest(env: Env, s: Shared, d: Driver, f: Frame, next: Pc): Plan {
    if !Owns(s.tables, d.run.info.tenant, d.run.info.id) then Raise(env, d, f, Broken, Idle(d))
    else
      Idle(d).(op := AddApproval(f.step), events := [Ev(d, ApprovalRequested, Some(f.step), 0.0, Null)],
               status := WaitingApproval, goal := Goto(next))
  }

  function PlanAsking(env: Env, s: Shared, d: Driver, f: Frame, purpose: Purpose): Plan {
    if d.sync then PlanRequest(env, s, d, f, Answering(f, purpose, |s.tables.approvals|))
    else
      match Latest(s.tables.approvals, d.run.info.tenant, d.run.info.id, f.step)
      case None => Idle(d).(goal := Goto(Requesting(f, purpose)))
      case Some(i) =>
        var status := s.tables.approvals[i].status;
        if status == ApprovalPending then Idle(d).(goal := Goto(Pausing(f)))
        else
          var granted := status == Approved;
          Settle(env, d, f, purpose, granted,
                 Idle(d).(acts := if granted then [Granted(d.id, d.run.info.id, f.step, i)] else [],
                          events := [Ev(d, ApprovalResolved, Some(f.step), 0.0, Bool(granted))]))
  }

  function PlanPausing(env: Env, s: Shared, d: Driver, f: Frame): Plan {
    if !CanCommit(s, d) then Raise(env, d, f, Broken, Idle(d).(status := WaitingApproval))
    else Raise(env, d, f, Paused, Idle(d).(op := Commit, status := WaitingApproval))
  }

  function PlanAnswering(env: Env, s: Shared, d: Driver, pc: Pc, c: Choice): Plan
    requires pc.Answering?
  {
    if c.Throw? then Raise(env, d, pc.f, Broken, Idle(d))
    else if !c.Answer? then Idle(d)
    else if ResolveApproval(s.tables, d.run.info.tenant, pc.approval, c.granted).None? then
      Raise(env, d, pc.f, Broken, Idle(d))
    else
      Settle(env, d, pc.f, pc.p, c.granted,
             Idle(d).(acts := [Resolved(pc.approval, c.granted)] +
                        if c.granted then [Granted(d.id, d.run.info.id, pc.f.step, pc.approval)] else [],
                      op := SettleApproval(pc.approval, c.granted),
                      events := [Ev(d, ApprovalResolved, Some(pc.f.step), 0.0, Bool(c.granted))],
                      status := Running))
  }

  function PlanExecuting(env: Env, s: Shared, d: Driver, pc: Pc, c: Choice): Plan
    requires pc.Executing?
  {
    if pc.tool !in env.tools then Raise(env, d, pc.f, Broken, Idle(d))
    else
      var tool := env.tools[pc.tool].(name := pc.tool);
      match c
      case Invoke =>
        Idle(d).(acts := Submit(d, pc.f.step, ByNode, tool, pc.args),
                 goal := Goto(Executing(pc.f, pc.tool, pc.args, true)))
      case Return(v) =>
        var r := Answered(s, tool, KeyedArgs(d.run.info.id, pc.f.step, pc.tool, pc.args), pc.invoked, v);
        if r.None? then Idle(d)
        else
          Idle(d).(acts := if tool.sideEffect then []
                           else [Observed(d.id, d.run.info.id, pc.f.step, pc.tool, pc.args, d.run.context, r.value)],
                   goal := Goto(Recording(pc.f, pc.tool, r.value)))
      case FailCall => Raise(env, d, pc.f, Connector, Idle(d))
      case _ => Idle(d)
  }

  /** Record the effect of a mutating tool, then book and keep the result. */
  function PlanRecording(env: Env, d: Driver, f: Frame, name: string, result: Json): Plan {
    if name !in env.tools then Raise(env, d, f, Broken, Idle(d))
    else
      var tool := env.tools[name];
      Idle(d).(op := if tool.sideEffect then Record(f.step, name, result) else Nothing,
               events := [Ev(d, ToolResult, Some(f.step), tool.cost, result)], cost := tool.cost,
               keep := Some((f.step, result)),
               goal := Done(f, StepOf(env, d.run.info.workflow, f.step).next))
  }

  /** Move the cursor; at the end of the walk the run has succeeded. */
  function PlanAdvancing(s: Shared, d: Driver, next: Option<Id>): Plan {
    if !CanCommit(s, d) then Idle(d).(goal := Stop(EndEscaped))
    else if next.Some? then Idle(d).(op := Commit, cursor := next, goal := Goto(Top(next.value)))
    else
      var result := ResultOf(d.run.context);
      Idle(d).(op := Commit, cursor := None, status := Succeeded, result := Some(result),
               events := [Ev(d, RunSucceeded, None, 0.0, result)], goal := Stop(EndSucceeded))
  }

  function PlanFor(env: Env, s: Shared, d: Driver, c: Choice): Plan {
    match d.pc
    case Top(at) => PlanTop(env, s, d, at)
    case Ready(f) => PlanReady(env, s, d, f)
    case Think(_, _, _, _) => PlanThink(env, d, d.pc, c)
    case Calls(_, _, _, _, _) => PlanCalls(env, d, d.pc)
    case Calling(_, _, _, _, _, _) => PlanCalling(env, s, d, d.pc, c)
    case Asking(f, p) => PlanAsking(env, s, d, f, p)
    case Requesting(f, p) => PlanRequest(env, s, d, f, Pausing(f))
    case Pausing(f) => PlanPausing(env, s, d, f)
    case Answering(_, _, _) => PlanAnswering(env, s, d, d.pc, c)
    case Executing(_, _, _, _) => PlanExecuting(env, s, d, d.pc, c)
    case Recording(f, tool, result) => PlanRecording(env, d, f, tool, result)
    case Advancing(_, next) => PlanAdvancing(s, d, next)
    case Failing(_) => PlanFailed(s, d)
  }

  function DriverStep(env: Env, s: Shared, d: Driver, c: Choice): Turn {
    Perform(s, d, PlanFor(env, s, d, c))
  }

  // ---- the world ------------------------------------------------------------

  predicate Hashable(key: Json) {
    !key.Arr? && !key.Obj?
  }

  /** The external system gets around to operation `i`, perhaps long after the
      connector gave up on it, perhaps again. It is idempotent on the key. */
  function Land(s: Shared, i: nat): Shared {
    if i < |s.log| && s.log[i].Posted? && Hashable(s.log[i].key) && s.log[i].key !in s.entries then
      s.(entries := s.entries[s.log[i].key := s.log[i].value])
    else s
  }

  datatype World = World(s: Shared, drivers: map<nat, Driver>, nextId: nat)

  const INIT := World(Shared(EMPTY, map[], []), map[], 0)

  datatype Action =
    | Fire(id: Id, tenant: Id, wf: Id, version: nat, trigger: Dict, key: string, sync: bool)
    | Start(tenant: Id, id: Id, sync: bool)
    | Drive(d: nat, c: Choice)
    | Crash(d: nat)
    | Arrive(i: nat)
    | Resolve(tenant: Id, approval: nat, approved: bool)
    | Cancel(tenant: Id, id: Id)
    | PurgePayloads(tenant: Id, stale: set<nat>)

  function NewRun(env: Env, a: Action): Run
    requires a.Fire? && a.wf in env.workflows
  {
    Run(RunInfo(a.id, a.tenant, a.wf, a.version, a.trigger, a.key), Pending,
        Some(env.workflows[a.wf].start), map[], 0.0, 0, None)
  }

  /** A call of `resume` with a fresh engine. */
  function Driving(env: Env, id: nat, sync: bool, run: Run, buffer: seq<Event>): Driver {
    Driver(id, sync, run.(status := Running), buffer,
           Top(if run.cursor.Some? then run.cursor.value else WorkflowOf(env, run.info.workflow).start))
  }

  function Launch(env: Env, w: World, sync: bool, run: Run, buffer: seq<Event>): World {
    w.(drivers := w.drivers[w.nextId := Driving(env, w.nextId, sync, run, buffer)], nextId := w.nextId + 1)
  }

  function NextFire(env: Env, w: World, a: Action): World
    requires a.Fire?
  {
    if a.wf !in env.workflows then w
    else
      var run := NewRun(env, a);
      if !Fresh(w.s.tables, run) then w
      else
        Launch(env, w.(s := w.s.(tables := CreateRun(w.s.tables, run))), a.sync, run,
               [Event(run.info.id, run.info.tenant, TriggerFired, None, 0.0, Obj(a.trigger))])
  }

  function NextStart(env: Env, w: World, tenant: Id, id: Id, sync: bool): World {
    if id !in w.s.tables.runs then w
    else
      var run := w.s.tables.runs[id];
      if run.info.tenant != tenant || run.info.workflow !in env.workflows || Terminal(run.status) then w
      else Launch(env, w, sync, run, [])
  }

  function NextDrive(env: Env, w: World, d: nat, c: Choice): World {
    if d !in w.drivers then w
    else
      var t := DriverStep(env, w.s, w.drivers[d], c);
      match t.o
      case Live(d') => w.(s := t.s, drivers := w.drivers[d := d'])
      case Ended(_) => w.(s := t.s, drivers := w.drivers - {d})
  }

  function NextResolve(w: World, tenant: Id, approval: nat, approved: bool): World {
    match ResolveApproval(w.s.tables, tenant, approval, approved)
    case None => w
    case Some(t) => w.(s := w.s.(tables := t, log := w.s.log + [Resolved(approval, approved)]))
  }

  function NextCancel(w: World, tenant: Id, id: Id): World {
    match CancelRun(w.s.tables, tenant, id)
    case None => w
    case Some(r) => w.(s := w.s.(tables := r.0))
  }

  /** An action that is not possible changes nothing. */
  function Next(env: Env, w: World, a: Action): World {
    match a
    case Fire(_, _, _, _, _, _, _) => NextFire(env, w, a)
    case Start(tenant, id, sync) => NextStart(env, w, tenant, id, sync)
    case Drive(d, c) => NextDrive(env, w, d, c)
    case Crash(d) => w.(drivers := w.drivers - {d})
    case Arrive(i) => w.(s := Land(w.s, i))
    case Resolve(tenant, approval, approved) => NextResolve(w, tenant, approval, approved)
    case Cancel(tenant, id) => NextCancel(w, tenant, id)
    case PurgePayloads(tenant, stale) => w.(s := w.s.(tables := Purge(w.s.tables, tenant, stale)))
  }

  /** Any run of the system is a list of actions. */
  function Exec(env: Env, w: World, acts: seq<Action>): World
    decreases acts
  {
    if acts == [] then w else Exec(env, Next(env, w, acts[0]), acts[1..])
  }

  // ---- one driver on its own ---------------------------------------------------

  /** A driver step, or a posted operation landing in between. */
  datatype Micro = Choose(c: Choice) | Lands(i: nat)

  function MicroStep(env: Env, t: Turn, m: Micro): Turn
    requires t.o.Live?
  {
    match m
    case Choose(c) => DriverStep(env, t.s, t.o.d, c)
    case Lands(i) => t.(s := Land(t.s, i))
  }

  function Steps(env: Env, t: Turn, ms: seq<Micro>): Turn
    decreases ms
  {
    if ms == [] || t.o.Ended? then t else Steps(env, MicroStep(env, t, ms[0]), ms[1..])
  }
}
