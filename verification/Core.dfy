/** Domain types shared by every module: JSON values, runs, events, tools,
    agents and workflow graphs. */
module Core {

  datatype Option<+T> = None | Some(value: T)

  type Id = string

  datatype Json =
    | Null
    | Bool(b: bool)
    | Num(n: real)
    | Str(s: string)
    | Arr(items: seq<Json>)
    | Obj(fields: map<string, Json>)

  /** A JSON object: tool arguments, a run's context, an event payload. */
  type Dict = map<string, Json>

  /** Truth value of a JSON value where the program writes `a or b`. */
  predicate Truthy(j: Json) {
    match j
    case Null => false
    case Bool(b) => b
    case Num(n) => n != 0.0
    case Str(s) => s != ""
    case Arr(items) => items != []
    case Obj(fields) => fields != map[]
  }

  /** The values that count as not given. */
  ghost predicate Falsy(j: Json) {
    || j == Null || j == Bool(false) || j == Num(0.0) || j == Str("") || j == Arr([]) || j == Obj(map[])
  }

  function Get(d: Dict, k: string): Json {
    if k in d then d[k] else Null
  }

  // ---- runs and events ------------------------------------------------

  datatype RunStatus = Pending | Running | WaitingApproval | Succeeded | Failed | Canceled

  predicate Terminal(s: RunStatus) {
    s.Succeeded? || s.Failed? || s.Canceled?
  }

  datatype Kind =
    | TriggerFired | StateTransition | StepRetry
    | AgentMessage | AgentFinal | PolicyDecision | ToolDenied
    | ToolResult | ToolResultReplayed | BranchTaken
    | ApprovalRequested | ApprovalResolved
    | Compensation | CompensationFailed
    | Error | RunSucceeded | RunCanceled

  predicate Closing(k: Kind) {
    k.Error? || k.RunSucceeded? || k.RunCanceled?
  }

  datatype Event = Event(run: Id, tenant: Id, kind: Kind, step: Option<Id>, cost: real, payload: Json)

  /** The columns fixed when the run row is inserted. */
  datatype RunInfo = RunInfo(id: Id, tenant: Id, workflow: Id, version: nat, trigger: Dict, key: string)

  datatype Run = Run(
    info: RunInfo, status: RunStatus, cursor: Option<Id>, context: Dict, cost: real, steps: nat,
    result: Option<Json>)

  // ---- tools, agents, workflows ---------------------------------------

  datatype Effect = Allow | Deny | RequireApproval

  /** A tool. A mutating tool (`sideEffect`) posts `post(args)` to a system that
      is idempotent on a key; a read-only tool only returns a value. */
  datatype Tool = Tool(name: string, sideEffect: bool, cost: real, post: Dict -> Json)

  datatype Agent = Agent(name: string, tools: seq<string>, maxSteps: nat)

  /** A branch arm; a missing test is the else arm, and a test that yields
      nothing is one that raised. */
  datatype Arm = Arm(test: Option<Dict -> Option<bool>>, goto: Id)

  datatype Node =
    | AgentNode(agent: string)
    | ToolNode(tool: string)
    | BranchNode(arms: seq<Arm>)
    | ApprovalNode
    | TerminateNode
    | UnknownNode

  /** One step. `args` resolves the argument table against the context and
      yields nothing when one of its callables raises. */
  datatype Step = Step(
    node: Node, args: Dict -> Option<Dict>, maxAttempts: int,
    compensate: Option<Id>, next: Option<Id>)

  datatype Workflow = Workflow(steps: map<Id, Step>, start: Id, budget: real, maxSteps: nat)
}
