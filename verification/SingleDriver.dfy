/** What holds when each run has at most one driver at a time and a cancel waits
    for it: the committed books balance, the terminal states are final and
    announced exactly once, and the budget gates every step entry. */
module SingleDriver {
  import opened Core
  import opened StoreSpec
  import opened Machine
  import opened Books

  // ---- schedules ----------------------------------------------------------------------

  ghost predicate NoDriver(w: World, id: Id) {
    forall i :: i in w.drivers ==> w.drivers[i].run.info.id != id
  }

  ghost predicate Serial(w: World, a: Action) {
    match a
    case Start(_, id, _) => NoDriver(w, id)
    case Cancel(_, id) => NoDriver(w, id)
    case _ => true
  }

  /** Every start and every cancel finds the run without a driver. */
  ghost predicate SerialRun(env: Env, w: World, acts: seq<Action>)
    decreases acts
  {
    acts == [] || (Serial(w, acts[0]) && SerialRun(env, Next(env, w, acts[0]), acts[1..]))
  }

  /** Runs can be joined. */
  lemma {:induction false} JoinRuns(env: Env, w: World, a: seq<Action>, b: seq<Action>)
    ensures Exec(env, w, a + b) == Exec(env, Exec(env, w, a), b)
    ensures SerialRun(env, w, a) && SerialRun(env, Exec(env, w, a), b) ==> SerialRun(env, w, a + b)
    decreases a
  {
    if a == [] {
      assert a + b == b;
    } else {
      assert (a + b)[1..] == a[1..] + b;
      JoinRuns(env, Next(env, w, a[0]), a[1..], b);
    }
  }

  // ---- the invariant ----------------------------------------------------------------------

  ghost predicate Announces(st: RunStatus, k: Kind) {
    match st
    case Succeeded => k.RunSucceeded?
    case Failed => k.Error?
    case Canceled => k.RunCanceled?
    case _ => false
  }

  /** A terminal run's log ends with the one event announcing it; no other log
      holds such an event. */
  ghost predicate ClosedBy(st: RunStatus, log: seq<Event>) {
    if Terminal(st) then
      log != [] && Announces(st, log[|log| - 1].kind) && Open(log[..|log| - 1])
    else Open(log)
  }

  ghost predicate Balanced(env: Env, run: Run, log: seq<Event>) {
    var wf := WorkflowOf(env, run.info.workflow);
    run.cost == Sum(log) && run.steps == Count(log) && Gated(log, wf.budget, wf.maxSteps)
  }

  ghost predicate RowInv(env: Env, run: Run, log: seq<Event>) {
    && Balanced(env, run, log)
    && ClosedBy(run.status, log)
    && (run.cursor.None? <==> run.status.Succeeded?)
  }

  ghost predicate Rows(env: Env, t: Tables) {
    && (forall r :: r in t.runs ==> t.runs[r].info.id == r && RowInv(env, t.runs[r], EventsOf(t.events, r)))
    && (forall i :: 0 <= i < |t.events| ==> t.events[i].run in t.runs)
  }

  /** A driver's copy of the run is the stored row plus what its buffer books. */
  ghost predicate DriverInv(env: Env, t: Tables, d: Driver) {
    var id := d.run.info.id;
    && id in t.runs && t.runs[id].info == d.run.info
    && !Terminal(t.runs[id].status) && !Terminal(d.run.status)
    && d.run.cursor == t.runs[id].cursor
    && Mine(d.buffer, d.run.info) && Open(d.buffer)
    && Balanced(env, d.run, EventsOf(t.events, id) + d.buffer)
  }

  ghost predicate Apart(w: World) {
    forall i, j :: i in w.drivers && j in w.drivers && i != j ==> w.drivers[i].run.info.id != w.drivers[j].run.info.id
  }

  ghost predicate Inv(env: Env, w: World) {
    && Rows(env, w.s.tables)
    && Apart(w)
    && (forall i :: i in w.drivers ==> i < w.nextId && DriverInv(env, w.s.tables, w.drivers[i]))
  }

  // ---- what a step plans ---------------------------------------------------------------------

  ghost predicate Sound(env: Env, s: Shared, d: Driver, p: Plan) {
    && Mine(p.events, d.run.info) && Mine(p.late, d.run.info)
    && p.cost == Sum(p.events) && p.steps == Count(p.events)
    && Sum(p.late) == 0.0 && Count(p.late) == 0 && Open(p.late)
    && (p.steps > 0 ==> |p.events| == 1 && !OverBudget(WorkflowOf(env, d.run.info.workflow), d.run))
    && (p.op.Commit? ==> CanCommit(s, d))
    && (if Terminal(p.status) then p.op.Commit? && p.goal.Stop? && |p.events| == 1 && Announces(p.status, p.events[0].kind)
        else Open(p.events))
    && (d.run.cursor.Some? ==> (p.cursor.None? <==> p.status.Succeeded?))
    && (!p.op.Commit? ==> p.cursor == d.run.cursor)
  }

  lemma RaiseLate(env: Env, d: Driver, f: Frame, e: Fault, p: Plan)
    requires p.late == []
    ensures var q := Raise(env, d, f, e, p);
            && q == p.(late := q.late, goal := q.goal)
            && |q.late| <= 2 && Mine(q.late, d.run.info) && Open(q.late)
            && (forall i :: 0 <= i < |q.late| ==> q.late[i].cost == 0.0 && !q.late[i].kind.StateTransition?)
  {
  }

  lemma SoundWith(env: Env, s: Shared, d: Driver, p: Plan, late: seq<Event>, goal: Goal)
    requires Sound(env, s, d, p) && !Terminal(p.status)
    requires Mine(late, d.run.info) && Open(late) && Sum(late) == 0.0 && Count(late) == 0
    ensures Sound(env, s, d, p.(late := late, goal := goal))
  {
  }

  lemma RaiseSound(env: Env, s: Shared, d: Driver, f: Frame, e: Fault, p: Plan)
    requires Sound(env, s, d, p) && p.late == [] && !Terminal(p.status)
    ensures Sound(env, s, d, Raise(env, d, f, e, p))
  {
    var q := Raise(env, d, f, e, p);
    RaiseLate(env, d, f, e, p);
    LateSound(q.late);
    SoundWith(env, s, d, p, q.late, q.goal);
  }

  lemma LateSound(late: seq<Event>)
    requires |late| <= 2 && forall i :: 0 <= i < |late| ==> late[i].cost == 0.0 && !late[i].kind.StateTransition?
    ensures Sum(late) == 0.0 && Count(late) == 0
  {
    if |late| == 1 { One(late[0]); assert late == [late[0]]; }
    if |late| == 2 { Two(late[0], late[1]); assert late == [late[0], late[1]]; }
  }

  lemma IdleSound(env: Env, s: Shared, d: Driver)
    requires !Terminal(d.run.status)
    ensures Sound(env, s, d, Idle(d))
  {
  }

  lemma EmitSound(env: Env, s: Shared, d: Driver, kind: Kind, step: Option<Id>, cost: real, payload: Json)
    requires !Terminal(d.run.status) && !Closing(kind) && !kind.StateTransition?
    ensures Sound(env, s, d, Idle(d).(events := [Ev(d, kind, step, cost, payload)], cost := cost))
  {
    One(Ev(d, kind, step, cost, payload));
  }

  lemma GateSound(env: Env, s: Shared, d: Driver, f: Frame, tool: Tool, args: Dict)
    requires !Terminal(d.run.status)
    ensures Sound(env, s, d, PlanGate(env, d, f, tool, args))
  {
    EmitSound(env, s, d, PolicyDecision, Some(f.step), 0.0, Str(tool.name));
    var effect := Gate(env, SystemAgent(tool.name), tool, args, d.run.context);
    var p := Idle(d).(
      acts := [Decided(d.id, d.run.info.id, f.step, ByNode, tool.name, args, d.run.context, effect)],
      events := [Ev(d, PolicyDecision, Some(f.step), 0.0, Str(tool.name))]);
    RaiseSound(env, s, d, f, Refused, p);
  }

  lemma ReadySound(env: Env, s: Shared, d: Driver, f: Frame)
    requires !Terminal(d.run.status)
    ensures Sound(env, s, d, PlanReady(env, s, d, f))
  {
    IdleSound(env, s, d);
    RaiseSound(env, s, d, f, Broken, Idle(d));
    EmitSound(env, s, d, BranchTaken, Some(f.step), 0.0, Null);
    var step := StepOf(env, d.run.info.workflow, f.step);
    if step.node.ToolNode? && step.node.tool in env.tools && step.args(d.run.context).Some? {
      ToolSound(env, s, d, f, step.node.tool, step.args(d.run.context).value);
    }
  }

  lemma ToolSound(env: Env, s: Shared, d: Driver, f: Frame, name: string, args: Dict)
    requires !Terminal(d.run.status)
    requires name in env.tools && StepOf(env, d.run.info.workflow, f.step).args(d.run.context) == Some(args)
    ensures Sound(env, s, d, PlanTool(env, s, d, f, name))
  {
    IdleSound(env, s, d);
    RaiseSound(env, s, d, f, Broken, Idle(d));
    GateSound(env, s, d, f, env.tools[name].(name := name), args);
    var row := GetEffect(s.tables, d.run.info.tenant, EffectKey(d.run.info.id, f.step, name));
    if row.Found? {
      EmitSound(env, s, d, ToolResultReplayed, Some(f.step), 0.0, row.result);
    }
  }

  lemma ThinkSound(env: Env, s: Shared, d: Driver, c: Choice)
    requires d.pc.Think? && !Terminal(d.run.status)
    ensures Sound(env, s, d, PlanThink(env, d, d.pc, c))
  {
    IdleSound(env, s, d);
    RaiseSound(env, s, d, d.pc.f, Broken, Idle(d));
    if c.Respond? {
      var message := Ev(d, AgentMessage, None, c.r.cost, Null);
      One(message);
      if c.r.body.Final? {
        Two(message, Ev(d, AgentFinal, None, 0.0, c.r.body.output));
      }
    }
  }

  lemma CallsSound(env: Env, s: Shared, d: Driver)
    requires d.pc.Calls? && !Terminal(d.run.status)
    ensures Sound(env, s, d, PlanCalls(env, d, d.pc))
  {
    IdleSound(env, s, d);
    RaiseSound(env, s, d, d.pc.f, Broken, Idle(d));
    if d.pc.calls != [] {
      var ev := Ev(d, PolicyDecision, None, 0.0, Str(d.pc.calls[0].tool));
      One(ev);
      Two(ev, Ev(d, ToolDenied, None, 0.0, Str(d.pc.calls[0].tool)));
    }
  }

  lemma CallingSound(env: Env, s: Shared, d: Driver, c: Choice)
    requires d.pc.Calling? && !Terminal(d.run.status)
    ensures Sound(env, s, d, PlanCalling(env, s, d, d.pc, c))
  {
    IdleSound(env, s, d);
    RaiseSound(env, s, d, d.pc.f, Broken, Idle(d));
    RaiseSound(env, s, d, d.pc.f, Connector, Idle(d));
    var p := PlanCalling(env, s, d, d.pc, c);
    if |p.events| == 1 { One(p.events[0]); assert p.events == [p.events[0]]; }
  }

  lemma SettleSound(env: Env, s: Shared, d: Driver, f: Frame, purpose: Purpose, granted: bool, p: Plan)
    requires Sound(env, s, d, p) && p.late == [] && !Terminal(p.status)
    ensures Sound(env, s, d, Settle(env, d, f, purpose, granted, p))
  {
    RaiseSound(env, s, d, f, Refused, p);
  }

  lemma AskingSound(env: Env, s: Shared, d: Driver, f: Frame, purpose: Purpose)
    requires !Terminal(d.run.status)
    ensures Sound(env, s, d, PlanAsking(env, s, d, f, purpose))
  {
    IdleSound(env, s, d);
    RequestSound(env, s, d, f, Answering(f, purpose, |s.tables.approvals|));
    var last := Latest(s.tables.approvals, d.run.info.tenant, d.run.info.id, f.step);
    if !d.sync && last.Some? {
      var granted := s.tables.approvals[last.value].status == Approved;
      EmitSound(env, s, d, ApprovalResolved, Some(f.step), 0.0, Bool(granted));
      SettleSound(env, s, d, f, purpose, granted,
                  Idle(d).(acts := if granted then [Granted(d.id, d.run.info.id, f.step, last.value)] else [],
                           events := [Ev(d, ApprovalResolved, Some(f.step), 0.0, Bool(granted))]));
    }
  }

  lemma RequestSound(env: Env, s: Shared, d: Driver, f: Frame, next: Pc)
    requires !Terminal(d.run.status)
    ensures Sound(env, s, d, PlanRequest(env, s, d, f, next))
  {
    IdleSound(env, s, d);
    RaiseSound(env, s, d, f, Broken, Idle(d));
    One(Ev(d, ApprovalRequested, Some(f.step), 0.0, Null));
  }

  lemma AnsweringSound(env: Env, s: Shared, d: Driver, c: Choice)
    requires d.pc.Answering? && !Terminal(d.run.status)
    ensures Sound(env, s, d, PlanAnswering(env, s, d, d.pc, c))
  {
    IdleSound(env, s, d);
    RaiseSound(env, s, d, d.pc.f, Broken, Idle(d));
    if c.Answer? {
      One(Ev(d, ApprovalResolved, Some(d.pc.f.step), 0.0, Bool(c.granted)));
      SettleSound(env, s, d, d.pc.f, d.pc.p, c.granted,
                  Idle(d).(acts := [Resolved(d.pc.approval, c.granted)] +
                             if c.granted then [Granted(d.id, d.run.info.id, d.pc.f.step, d.pc.approval)] else [],
                           op := SettleApproval(d.pc.approval, c.granted),
                           events := [Ev(d, ApprovalResolved, Some(d.pc.f.step), 0.0, Bool(c.granted))],
                           status := Running));
    }
  }

  lemma PausingSound(env: Env, s: Shared, d: Driver, f: Frame)
    requires !Terminal(d.run.status)
    ensures Sound(env, s, d, PlanPausing(env, s, d, f))
  {
    RaiseSound(env, s, d, f, Broken, Idle(d).(status := WaitingApproval));
    if CanCommit(s, d) {
      RaiseSound(env, s, d, f, Paused, Idle(d).(op := Commit, status := WaitingApproval));
    }
  }

  lemma ExecutingSound(env: Env, s: Shared, d: Driver, c: Choice)
    requires d.pc.Executing? && !Terminal(d.run.status)
    ensures Sound(env, s, d, PlanFor(env, s, d, c))
  {
    IdleSound(env, s, d);
    RaiseSound(env, s, d, d.pc.f, Broken, Idle(d));
    RaiseSound(env, s, d, d.pc.f, Connector, Idle(d));
  }

  lemma RecordingSound(env: Env, s: Shared, d: Driver, c: Choice)
    requires d.pc.Recording? && !Terminal(d.run.status)
    ensures Sound(env, s, d, PlanFor(env, s, d, c))
  {
    if d.pc.tool in env.tools {
      EmitSound(env, s, d, ToolResult, Some(d.pc.f.step), env.tools[d.pc.tool].cost, d.pc.result);
    } else {
      IdleSound(env, s, d);
      RaiseSound(env, s, d, d.pc.f, Broken, Idle(d));
    }
  }

  lemma WalkSound(env: Env, s: Shared, d: Driver, c: Choice)
    requires (d.pc.Top? || d.pc.Advancing? || d.pc.Failing?) && !Terminal(d.run.status)
    ensures Sound(env, s, d, PlanFor(env, s, d, c))
  {
    var p := PlanFor(env, s, d, c);
    if |p.events| == 1 { One(p.events[0]); assert p.events == [p.events[0]]; }
  }

  lemma PlanSound(env: Env, s: Shared, d: Driver, c: Choice)
    requires !Terminal(d.run.status)
    ensures Sound(env, s, d, PlanFor(env, s, d, c))
  {
    match d.pc
    case Ready(f) => ReadySound(env, s, d, f);
    case Think(_, _, _, _) => ThinkSound(env, s, d, c);
    case Calls(_, _, _, _, _) => CallsSound(env, s, d);
    case Calling(_, _, _, _, _, _) => CallingSound(env, s, d, c);
    case Asking(f, p) => AskingSound(env, s, d, f, p);
    case Requesting(f, _) => RequestSound(env, s, d, f, Pausing(f));
    case Pausing(f) => PausingSound(env, s, d, f);
    case Answering(_, _, _) => AnsweringSound(env, s, d, c);
    case Executing(_, _, _, _) => ExecutingSound(env, s, d, c);
    case Recording(_, _, _) => RecordingSound(env, s, d, c);
    case Top(_) => WalkSound(env, s, d, c);
    case Advancing(_, _) => WalkSound(env, s, d, c);
    case Failing(_) => WalkSound(env, s, d, c);
  }

  // ---- what the step does to the books ------------------------------------------------------

  lemma BalancedAppend(env: Env, run: Run, log: seq<Event>, more: seq<Event>, run': Run)
    requires Balanced(env, run, log) && run'.info == run.info
    requires run'.cost == run.cost + Sum(more) && run'.steps == run.steps + Count(more)
    requires Count(more) > 0 ==> |more| == 1 && !OverBudget(WorkflowOf(env, run.info.workflow), run)
    ensures Balanced(env, run', log + more)
  {
    var wf := WorkflowOf(env, run.info.workflow);
    Append(log, more);
    GatedAppend(log, more, wf.budget, wf.maxSteps);
  }

  /** The driver's books after the step, against the log the step leaves. */
  lemma StepBalanced(env: Env, s: Shared, d: Driver, p: Plan, log: seq<Event>)
    requires Sound(env, s, d, p) && Balanced(env, d.run, log + d.buffer)
    ensures Balanced(env, RunAfter(d, p), log + (d.buffer + p.events))
    ensures Balanced(env, RunAfter(d, p), log + (d.buffer + p.events + p.late))
  {
    EventsBalanced(env, s, d, p, log);
    BalancedAppend(env, RunAfter(d, p), log + (d.buffer + p.events), p.late, RunAfter(d, p));
    assert log + (d.buffer + p.events) + p.late == log + (d.buffer + p.events + p.late);
  }

  lemma EventsBalanced(env: Env, s: Shared, d: Driver, p: Plan, log: seq<Event>)
    requires Sound(env, s, d, p) && Balanced(env, d.run, log + d.buffer)
    ensures Balanced(env, RunAfter(d, p), log + (d.buffer + p.events))
  {
    BalancedAppend(env, d.run, log + d.buffer, p.events, RunAfter(d, p));
    assert log + d.buffer + p.events == log + (d.buffer + p.events);
  }

  /** The tables after the step: only this run's row and log can differ. */
  lemma StepTables(env: Env, s: Shared, d: Driver, p: Plan)
    requires Sound(env, s, d, p) && DriverInv(env, s.tables, d)
    ensures var t := TablesAfter(s.tables, d, p);
            if p.op.Commit? then
              && t.runs == s.tables.runs[d.run.info.id := Updated(s.tables.runs[d.run.info.id], RunAfter(d, p))]
              && t.events == s.tables.events + (d.buffer + p.events)
            else t.runs == s.tables.runs && t.events == s.tables.events
  {
    if p.op.Commit? {
      assert AllOf(d.buffer + p.events, d.run.info.tenant);
    }
  }

  lemma NewLog(s: Shared, d: Driver, p: Plan, r: Id)
    requires Mine(d.buffer, d.run.info) && Mine(p.events, d.run.info)
    ensures EventsOf(s.tables.events + (d.buffer + p.events), r) ==
            EventsOf(s.tables.events, r) + if r == d.run.info.id then d.buffer + p.events else []
  {
    EventsAppend(s.tables.events, d.buffer + p.events, r);
    EventsMine(d.buffer + p.events, d.run.info, r);
  }

  lemma CommitRow(env: Env, s: Shared, d: Driver, p: Plan)
    requires Sound(env, s, d, p) && DriverInv(env, s.tables, d) && Rows(env, s.tables) && p.op.Commit?
    ensures RowInv(env, Updated(s.tables.runs[d.run.info.id], RunAfter(d, p)),
                   EventsOf(s.tables.events, d.run.info.id) + (d.buffer + p.events))
  {
    var log := EventsOf(s.tables.events, d.run.info.id);
    StepBalanced(env, s, d, p, log);
    var all := log + (d.buffer + p.events);
    if Terminal(p.status) {
      assert all[..|all| - 1] == log + d.buffer;
    }
  }

  lemma StepRows(env: Env, s: Shared, d: Driver, p: Plan)
    requires Sound(env, s, d, p) && DriverInv(env, s.tables, d) && Rows(env, s.tables)
    ensures Rows(env, TablesAfter(s.tables, d, p))
  {
    StepTables(env, s, d, p);
    var t := TablesAfter(s.tables, d, p);
    if p.op.Commit? {
      forall r | r in t.runs ensures t.runs[r].info.id == r && RowInv(env, t.runs[r], EventsOf(t.events, r)) {
        CommitRows(env, s, d, p, r);
      }
    }
  }

  lemma CommitRows(env: Env, s: Shared, d: Driver, p: Plan, r: Id)
    requires Sound(env, s, d, p) && DriverInv(env, s.tables, d) && Rows(env, s.tables) && p.op.Commit? && r in s.tables.runs
    ensures var t := TablesAfter(s.tables, d, p);
            r in t.runs && t.runs[r].info.id == r && RowInv(env, t.runs[r], EventsOf(t.events, r))
  {
    StepTables(env, s, d, p);
    NewLog(s, d, p, r);
    if r == d.run.info.id { CommitRow(env, s, d, p); }
    else { assert EventsOf(s.tables.events, r) + [] == EventsOf(s.tables.events, r); }
  }

  lemma StepDriver(env: Env, s: Shared, d: Driver, p: Plan)
    requires Sound(env, s, d, p) && DriverInv(env, s.tables, d) && p.goal.Goto?
    ensures DriverInv(env, TablesAfter(s.tables, d, p), Perform(s, d, p).o.d)
  {
    StepTables(env, s, d, p);
    if p.op.Commit? { CommitDriver(env, s, d, p); }
    else {
      StepBalanced(env, s, d, p, EventsOf(s.tables.events, d.run.info.id));
    }
  }

  lemma CommitDriver(env: Env, s: Shared, d: Driver, p: Plan)
    requires Sound(env, s, d, p) && DriverInv(env, s.tables, d) && p.goal.Goto? && p.op.Commit?
    ensures DriverInv(env, TablesAfter(s.tables, d, p), Perform(s, d, p).o.d)
  {
    var log := EventsOf(s.tables.events, d.run.info.id);
    StepTables(env, s, d, p);
    NewLog(s, d, p, d.run.info.id);
    LateBalanced(env, s, d, p, log);
    assert [] + p.late == p.late;
  }

  /** The books against the log the commit leaves, with what is emitted after it. */
  lemma LateBalanced(env: Env, s: Shared, d: Driver, p: Plan, log: seq<Event>)
    requires Sound(env, s, d, p) && Balanced(env, d.run, log + d.buffer)
    ensures Balanced(env, RunAfter(d, p), log + (d.buffer + p.events) + p.late)
  {
    StepBalanced(env, s, d, p, log);
    assert log + (d.buffer + p.events) + p.late == log + (d.buffer + p.events + p.late);
  }

  lemma StepOther(env: Env, s: Shared, d: Driver, p: Plan, e: Driver)
    requires Sound(env, s, d, p) && DriverInv(env, s.tables, d) && DriverInv(env, s.tables, e)
    requires e.run.info.id != d.run.info.id
    ensures DriverInv(env, TablesAfter(s.tables, d, p), e)
  {
    StepTables(env, s, d, p);
    if p.op.Commit? {
      NewLog(s, d, p, e.run.info.id);
      assert EventsOf(s.tables.events, e.run.info.id) + [] == EventsOf(s.tables.events, e.run.info.id);
    }
  }

  // ---- every action, every serial run ----------------------------------------------------------

  lemma DriveInv(env: Env, w: World, a: Action)
    requires Inv(env, w)
    ensures a.Drive? ==> Inv(env, Next(env, w, a))
  {
    if a.Drive? && a.d in w.drivers {
      var d := w.drivers[a.d];
      PlanSound(env, w.s, d, a.c);
      PerformInv(env, w, a.d, PlanFor(env, w.s, d, a.c));
    }
  }

  /** A driver's step, whatever sound plan it follows. */
  lemma PerformInv(env: Env, w: World, i: nat, p: Plan)
    requires Inv(env, w) && i in w.drivers && Sound(env, w.s, w.drivers[i], p)
    ensures var t := Perform(w.s, w.drivers[i], p);
            Inv(env, w.(s := t.s, drivers := if t.o.Live? then w.drivers[i := t.o.d] else w.drivers - {i}))
  {
    var d := w.drivers[i];
    StepRows(env, w.s, d, p);
    if p.goal.Goto? { StepDriver(env, w.s, d, p); }
    forall j | j in w.drivers && j != i ensures DriverInv(env, TablesAfter(w.s.tables, d, p), w.drivers[j]) {
      StepOther(env, w.s, d, p, w.drivers[j]);
    }
    TurnTaken(env, w, i, Perform(w.s, d, p));
  }

  lemma TurnTaken(env: Env, w: World, i: nat, t: Turn)
    requires Apart(w) && i in w.drivers && (forall j :: j in w.drivers ==> j < w.nextId)
    requires Rows(env, t.s.tables)
    requires forall j :: j in w.drivers && j != i ==> DriverInv(env, t.s.tables, w.drivers[j])
    requires t.o.Live? ==> DriverInv(env, t.s.tables, t.o.d) && t.o.d.run.info == w.drivers[i].run.info
    ensures Inv(env, w.(s := t.s, drivers := if t.o.Live? then w.drivers[i := t.o.d] else w.drivers - {i}))
  {
  }

  lemma {:induction false} NoEvents(es: seq<Event>, runs: map<Id, Run>, r: Id)
    requires (forall i :: 0 <= i < |es| ==> es[i].run in runs) && r !in runs
    ensures EventsOf(es, r) == []
  {
    if es != [] {
      NoEvents(es[..|es| - 1], runs, r);
    }
  }

  /** A newly inserted run has nothing booked. */
  lemma FreshRows(env: Env, t: Tables, run: Run)
    requires Rows(env, t) && Fresh(t, run)
    requires run.cost == 0.0 && run.steps == 0 && run.status == Pending && run.cursor.Some?
    ensures Rows(env, CreateRun(t, run)) && EventsOf(t.events, run.info.id) == []
  {
    NoEvents(t.events, t.runs, run.info.id);
    FreshRow(env, run);
  }

  lemma FreshRow(env: Env, run: Run)
    requires run.cost == 0.0 && run.steps == 0 && run.status == Pending && run.cursor.Some?
    ensures RowInv(env, run, [])
  {
  }

  lemma FreshDriver(env: Env, t: Tables, run: Run, id: nat, sync: bool, first: Event)
    requires run.info.id in t.runs && t.runs[run.info.id] == run && EventsOf(t.events, run.info.id) == []
    requires run.cost == 0.0 && run.steps == 0 && run.status == Pending && run.cursor.Some?
    requires first.run == run.info.id && first.tenant == run.info.tenant && first.kind == TriggerFired && first.cost == 0.0
    ensures DriverInv(env, t, Driving(env, id, sync, run, [first]))
  {
    One(first);
    assert [] + [first] == [first];
  }

  lemma FireInv(env: Env, w: World, a: Action)
    requires Inv(env, w)
    ensures a.Fire? ==> Inv(env, Next(env, w, a))
  {
    if a.Fire? && a.wf in env.workflows && Fresh(w.s.tables, NewRun(env, a)) {
      var run, t' := NewRun(env, a), CreateRun(w.s.tables, NewRun(env, a));
      var first := Event(a.id, a.tenant, TriggerFired, None, 0.0, Obj(a.trigger));
      FreshRows(env, w.s.tables, run);
      FreshDriver(env, t', run, w.nextId, a.sync, first);
      forall i | i in w.drivers ensures DriverInv(env, t', w.drivers[i]) && w.drivers[i].run.info.id != a.id {
        assert DriverInv(env, w.s.tables, w.drivers[i]);
      }
      Launched(env, w, t', a.sync, run, [first]);
    }
  }

  /** Adding a driver for a run that has none. */
  lemma Launched(env: Env, w: World, t': Tables, sync: bool, run: Run, buffer: seq<Event>)
    requires Apart(w) && Rows(env, t') && NoDriver(w, run.info.id)
    requires forall i :: i in w.drivers ==> i < w.nextId && DriverInv(env, t', w.drivers[i])
    requires DriverInv(env, t', Driving(env, w.nextId, sync, run, buffer))
    ensures Inv(env, Launch(env, w.(s := w.s.(tables := t')), sync, run, buffer))
  {
  }

  lemma StartInv(env: Env, w: World, a: Action)
    requires Inv(env, w) && Serial(w, a)
    ensures a.Start? ==> Inv(env, Next(env, w, a))
  {
    if a.Start? && a.id in w.s.tables.runs {
      var t, run := w.s.tables, w.s.tables.runs[a.id];
      if !Terminal(run.status) {
        assert EventsOf(t.events, a.id) + [] == EventsOf(t.events, a.id);
        Launched(env, w, t, a.sync, run, []);
      }
    }
  }

  ghost predicate Cancelable(t: Tables, tenant: Id, id: Id) {
    Owns(t, tenant, id) && id in t.runs && !Terminal(t.runs[id].status)
  }

  lemma CanceledLog(t: Tables, tenant: Id, id: Id, r: Id)
    requires Cancelable(t, tenant, id) && t.runs[id].info.id == id
    ensures EventsOf(CancelRun(t, tenant, id).value.0.events, r) ==
            EventsOf(t.events, r) + if r == id then [Event(id, tenant, RunCanceled, None, 0.0, PURGED)] else []
  {
    var last := Event(id, tenant, RunCanceled, None, 0.0, PURGED);
    EventsAppend(t.events, [last], r);
    EventsMine([last], t.runs[id].info, r);
  }

  lemma CanceledRow(env: Env, run: Run, log: seq<Event>, last: Event)
    requires RowInv(env, run, log) && !Terminal(run.status) && last.kind == RunCanceled && last.cost == 0.0
    ensures RowInv(env, run.(status := Canceled), log + [last])
  {
    One(last);
    BalancedAppend(env, run, log, [last], run.(status := Canceled));
    assert (log + [last])[..|log + [last]| - 1] == log;
  }

  lemma CanceledRows(env: Env, t: Tables, tenant: Id, id: Id)
    requires Rows(env, t) && Cancelable(t, tenant, id)
    ensures Rows(env, CancelRun(t, tenant, id).value.0)
  {
    var t' := CancelRun(t, tenant, id).value.0;
    CanceledRow(env, t.runs[id], EventsOf(t.events, id), Event(id, tenant, RunCanceled, None, 0.0, PURGED));
    forall r | r in t'.runs ensures t'.runs[r].info.id == r && RowInv(env, t'.runs[r], EventsOf(t'.events, r)) {
      CanceledLog(t, tenant, id, r);
      assert EventsOf(t.events, r) + [] == EventsOf(t.events, r);
    }
  }

  lemma CancelInv(env: Env, w: World, a: Action)
    requires Inv(env, w) && Serial(w, a)
    ensures a.Cancel? ==> Inv(env, Next(env, w, a))
  {
    if a.Cancel? && Cancelable(w.s.tables, a.tenant, a.id) {
      var t' := CancelRun(w.s.tables, a.tenant, a.id).value.0;
      CanceledRows(env, w.s.tables, a.tenant, a.id);
      forall i | i in w.drivers ensures DriverInv(env, t', w.drivers[i]) {
        CanceledDriver(env, w.s.tables, a.tenant, a.id, w.drivers[i]);
      }
    }
  }

  lemma CanceledDriver(env: Env, t: Tables, tenant: Id, id: Id, d: Driver)
    requires Rows(env, t) && Cancelable(t, tenant, id) && DriverInv(env, t, d) && d.run.info.id != id
    ensures DriverInv(env, CancelRun(t, tenant, id).value.0, d)
  {
    CanceledLog(t, tenant, id, d.run.info.id);
    assert EventsOf(t.events, d.run.info.id) + [] == EventsOf(t.events, d.run.info.id);
  }

  lemma PurgedAlike(t: Tables, tenant: Id, stale: set<nat>)
    ensures Alike(t.events, Purge(t, tenant, stale).events)
  {
  }

  lemma PurgedRows(env: Env, t: Tables, tenant: Id, stale: set<nat>)
    requires Rows(env, t)
    ensures Rows(env, Purge(t, tenant, stale)) && Alike(t.events, Purge(t, tenant, stale).events)
  {
    var t' := Purge(t, tenant, stale);
    PurgedAlike(t, tenant, stale);
    forall r | r in t'.runs ensures t'.runs[r].info.id == r && RowInv(env, t'.runs[r], EventsOf(t'.events, r)) {
      AlikeEvents(t.events, t'.events, r);
      AlikeRow(env, t.runs[r], EventsOf(t.events, r), EventsOf(t'.events, r));
    }
  }

  lemma PurgedDriver(env: Env, t: Tables, t': Tables, d: Driver)
    requires DriverInv(env, t, d) && Alike(t.events, t'.events) && t'.runs == t.runs
    ensures DriverInv(env, t', d)
  {
    var id := d.run.info.id;
    AlikeEvents(t.events, t'.events, id);
    AlikeBalanced(env, d.run, EventsOf(t.events, id) + d.buffer, EventsOf(t'.events, id) + d.buffer);
  }

  lemma PurgeInv(env: Env, w: World, a: Action)
    requires Inv(env, w)
    ensures a.PurgePayloads? ==> Inv(env, Next(env, w, a))
  {
    if a.PurgePayloads? {
      PurgedRows(env, w.s.tables, a.tenant, a.stale);
      forall i | i in w.drivers ensures DriverInv(env, Purge(w.s.tables, a.tenant, a.stale), w.drivers[i]) {
        PurgedDriver(env, w.s.tables, Purge(w.s.tables, a.tenant, a.stale), w.drivers[i]);
      }
    }
  }

  lemma AlikeBalanced(env: Env, run: Run, log: seq<Event>, log': seq<Event>)
    requires Balanced(env, run, log) && Alike(log, log')
    ensures Balanced(env, run, log')
  {
    var wf := WorkflowOf(env, run.info.workflow);
    AlikeBooks(log, log');
    AlikeGated(log, log', wf.budget, wf.maxSteps);
  }

  lemma AlikeRow(env: Env, run: Run, log: seq<Event>, log': seq<Event>)
    requires RowInv(env, run, log) && Alike(log, log')
    ensures RowInv(env, run, log')
  {
    AlikeBalanced(env, run, log, log');
    forall i | 0 <= i < |log| ensures log[i].kind == log'[i].kind {
      assert log[i].(payload := Null) == log'[i].(payload := Null);
    }
  }

  lemma ResolveInv(env: Env, w: World, a: Action)
    requires Inv(env, w) && a.Resolve?
    ensures Inv(env, Next(env, w, a))
  {
    var t := ResolveApproval(w.s.tables, a.tenant, a.approval, a.approved);
    if t.Some? {
      assert t.value.runs == w.s.tables.runs && t.value.events == w.s.tables.events;
    }
  }

  lemma OtherInv(env: Env, w: World, a: Action)
    requires Inv(env, w)
    ensures a.Crash? || a.Arrive? || a.Resolve? ==> Inv(env, Next(env, w, a))
  {
    if a.Resolve? { ResolveInv(env, w, a); }
  }

  lemma NextInv(env: Env, w: World, a: Action)
    requires Inv(env, w) && Serial(w, a)
    ensures Inv(env, Next(env, w, a))
  {
    DriveInv(env, w, a);
    FireInv(env, w, a);
    StartInv(env, w, a);
    CancelInv(env, w, a);
    PurgeInv(env, w, a);
    OtherInv(env, w, a);
  }

  lemma {:induction false} ExecInv(env: Env, w: World, acts: seq<Action>)
    requires Inv(env, w) && SerialRun(env, w, acts)
    ensures Inv(env, Exec(env, w, acts))
    decreases acts
  {
    if acts != [] {
      NextInv(env, w, acts[0]);
      ExecInv(env, Next(env, w, acts[0]), acts[1..]);
    }
  }

  // ---- the theorems ------------------------------------------------------------------------------

  /** Conservation: in every state a serial run reaches, whatever was retried,
      compensated, paused, crashed, canceled or purged, a run's committed cost
      is the left-to-right sum over its committed events, and its committed
      step count is the number of its step entries. */
  lemma Conservation(env: Env, acts: seq<Action>, r: Id)
    requires SerialRun(env, INIT, acts) && r in Exec(env, INIT, acts).s.tables.runs
    ensures var t := Exec(env, INIT, acts).s.tables;
            t.runs[r].cost == Sum(EventsOf(t.events, r)) && t.runs[r].steps == Count(EventsOf(t.events, r))
  {
    ExecInv(env, INIT, acts);
  }

  /** The cursor is null exactly when the run has succeeded; a terminal run's
      log ends with its one announcement, and other logs hold none. */
  lemma TerminalStates(env: Env, acts: seq<Action>, r: Id)
    requires SerialRun(env, INIT, acts) && r in Exec(env, INIT, acts).s.tables.runs
    ensures var t := Exec(env, INIT, acts).s.tables;
            && (t.runs[r].cursor.None? <==> t.runs[r].status == Succeeded)
            && ClosedBy(t.runs[r].status, EventsOf(t.events, r))
  {
    ExecInv(env, INIT, acts);
  }

  /** Every step entry of every run, in cyclic graphs too, found the cost booked
      before it within the budget; so the cost exceeds the budget by no more
      than what the last step entry booked, and there are at most
      `maxSteps + 1` entries over the whole life of the run. */
  lemma BudgetGate(env: Env, acts: seq<Action>, r: Id)
    requires SerialRun(env, INIT, acts) && r in Exec(env, INIT, acts).s.tables.runs
    ensures var t := Exec(env, INIT, acts).s.tables;
            var wf, log := WorkflowOf(env, t.runs[r].info.workflow), EventsOf(t.events, r);
            && Gated(log, wf.budget, wf.maxSteps)
            && Count(log) == t.runs[r].steps <= wf.maxSteps + 1
            && (forall k: nat :: LastEntry(log, k) ==> t.runs[r].cost <= wf.budget + Sum(log[k..]))
  {
    ExecInv(env, INIT, acts);
    var t := Exec(env, INIT, acts).s.tables;
    var wf, log := WorkflowOf(env, t.runs[r].info.workflow), EventsOf(t.events, r);
    GatedCount(log, wf.budget, wf.maxSteps);
    forall k: nat | LastEntry(log, k) ensures Sum(log) <= wf.budget + Sum(log[k..]) {
      Overshoot(log, wf.budget, wf.maxSteps, k);
    }
  }

  ghost predicate Kept(t: Tables, t': Tables, r: Id) {
    r in t.runs && r in t'.runs && t'.runs[r] == t.runs[r] && Alike(EventsOf(t.events, r), EventsOf(t'.events, r))
  }

  lemma SameKept(t: Tables, r: Id)
    requires r in t.runs
    ensures Kept(t, t, r)
  {
  }

  lemma DriveKeeps(env: Env, w: World, a: Action, r: Id)
    requires a.Drive? && (a.d in w.drivers ==> DriverInv(env, w.s.tables, w.drivers[a.d]))
    requires r in w.s.tables.runs && Terminal(w.s.tables.runs[r].status)
    ensures Kept(w.s.tables, Next(env, w, a).s.tables, r)
  {
    if a.d in w.drivers {
      var d := w.drivers[a.d];
      PlanSound(env, w.s, d, a.c);
      DriveKept(env, w.s, d, PlanFor(env, w.s, d, a.c), r);
    } else {
      SameKept(w.s.tables, r);
    }
  }

  lemma DriveKept(env: Env, s: Shared, d: Driver, p: Plan, r: Id)
    requires Sound(env, s, d, p) && DriverInv(env, s.tables, d) && r in s.tables.runs && Terminal(s.tables.runs[r].status)
    ensures Kept(s.tables, TablesAfter(s.tables, d, p), r)
  {
    StepTables(env, s, d, p);
    NewLog(s, d, p, r);
    assert EventsOf(s.tables.events, r) + [] == EventsOf(s.tables.events, r);
  }

  lemma CancelKeeps(env: Env, w: World, a: Action, r: Id)
    requires a.Cancel? && (a.id in w.s.tables.runs ==> w.s.tables.runs[a.id].info.id == a.id)
    requires r in w.s.tables.runs && Terminal(w.s.tables.runs[r].status)
    ensures Kept(w.s.tables, Next(env, w, a).s.tables, r)
  {
    if Cancelable(w.s.tables, a.tenant, a.id) {
      CancelKept(w.s.tables, a.tenant, a.id, r);
    } else {
      SameKept(w.s.tables, r);
    }
  }

  lemma CancelKept(t: Tables, tenant: Id, id: Id, r: Id)
    requires Cancelable(t, tenant, id) && t.runs[id].info.id == id && r in t.runs && Terminal(t.runs[r].status)
    ensures Kept(t, CancelRun(t, tenant, id).value.0, r)
  {
    CanceledLog(t, tenant, id, r);
    assert EventsOf(t.events, r) + [] == EventsOf(t.events, r);
  }

  lemma PurgeKeeps(env: Env, w: World, a: Action, r: Id)
    requires a.PurgePayloads? && r in w.s.tables.runs
    ensures Kept(w.s.tables, Next(env, w, a).s.tables, r)
  {
    PurgedAlike(w.s.tables, a.tenant, a.stale);
    AlikeEvents(w.s.tables.events, Purge(w.s.tables, a.tenant, a.stale).events, r);
  }

  lemma OthersKeep(env: Env, w: World, a: Action, r: Id)
    requires r in w.s.tables.runs && !a.Drive? && !a.Cancel? && !a.PurgePayloads?
    ensures Kept(w.s.tables, Next(env, w, a).s.tables, r)
  {
  }

  lemma NextKeeps(env: Env, w: World, a: Action, r: Id)
    requires Inv(env, w) && r in w.s.tables.runs && Terminal(w.s.tables.runs[r].status)
    ensures Kept(w.s.tables, Next(env, w, a).s.tables, r)
  {
    if a.Drive? { DriveKeeps(env, w, a, r); }
    else if a.Cancel? { CancelKeeps(env, w, a, r); }
    else if a.PurgePayloads? { PurgeKeeps(env, w, a, r); }
    else { OthersKeep(env, w, a, r); }
  }

  /** Terminal statuses are absorbing: the row never changes again, and its log
      only loses payloads to retention. */
  lemma {:induction false} Absorbing(env: Env, w: World, acts: seq<Action>, r: Id)
    requires Inv(env, w) && SerialRun(env, w, acts)
    requires r in w.s.tables.runs && Terminal(w.s.tables.runs[r].status)
    ensures Kept(w.s.tables, Exec(env, w, acts).s.tables, r)
    decreases acts
  {
    if acts != [] {
      NextKeeps(env, w, acts[0], r);
      NextInv(env, w, acts[0]);
      Absorbing(env, Next(env, w, acts[0]), acts[1..], r);
    }
  }

  /** The same from the start of the system: what is terminal after `acts` is so
      for good. */
  lemma TerminalForever(env: Env, acts: seq<Action>, more: seq<Action>, r: Id)
    requires SerialRun(env, INIT, acts) && SerialRun(env, Exec(env, INIT, acts), more)
    requires var t := Exec(env, INIT, acts).s.tables; r in t.runs && Terminal(t.runs[r].status)
    ensures var w := Exec(env, INIT, acts); Kept(w.s.tables, Exec(env, w, more).s.tables, r)
  {
    ExecInv(env, INIT, acts);
    Absorbing(env, Exec(env, INIT, acts), more, r);
  }

  /** Without that discipline the claim is false: a cancel that arrives while a
      driver is about to commit its last step is overwritten. */
  lemma CancelOverwritten(env: Env, w: World, i: nat, f: Frame, c: Choice)
    requires i in w.drivers && w.drivers[i].pc == Advancing(f, None) && CanCommit(w.s, w.drivers[i])
    requires w.drivers[i].run.info.id in w.s.tables.runs
    requires !Terminal(w.s.tables.runs[w.drivers[i].run.info.id].status)
    ensures var d := w.drivers[i];
            var w1 := Next(env, w, Cancel(d.run.info.tenant, d.run.info.id));
            var w2 := Next(env, w1, Drive(i, c));
            && d.run.info.id in w1.s.tables.runs && w1.s.tables.runs[d.run.info.id].status == Canceled
            && d.run.info.id in w2.s.tables.runs && w2.s.tables.runs[d.run.info.id].status == Succeeded
  {
    var d := w.drivers[i];
    CancelLands(env, w, d.run.info.tenant, d.run.info.id);
    LastCommit(env, Next(env, w, Cancel(d.run.info.tenant, d.run.info.id)), i, f, c);
  }

  lemma CancelLands(env: Env, w: World, tenant: Id, id: Id)
    requires id in w.s.tables.runs && w.s.tables.runs[id].info.tenant == tenant && !Terminal(w.s.tables.runs[id].status)
    ensures var w1 := Next(env, w, Cancel(tenant, id));
            && w1.drivers == w.drivers
            && w1.s.tables.runs == w.s.tables.runs[id := w.s.tables.runs[id].(status := Canceled)]
  {
  }

  /** A driver at its last commit makes the run SUCCEEDED, whatever the row says. */
  lemma LastCommit(env: Env, w: World, i: nat, f: Frame, c: Choice)
    requires i in w.drivers && w.drivers[i].pc == Advancing(f, None) && CanCommit(w.s, w.drivers[i])
    requires w.drivers[i].run.info.id in w.s.tables.runs
    ensures var id, runs := w.drivers[i].run.info.id, Next(env, w, Drive(i, c)).s.tables.runs;
            id in runs && runs[id].status == Succeeded
  {
    var d := w.drivers[i];
    assert AllOf(d.buffer + PlanAdvancing(w.s, d, None).events, d.run.info.tenant);
  }
}
