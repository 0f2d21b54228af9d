/** The walk over the step graph, with one driver per run at a time: every step
    entry is at the cursor, and the cursor moves along the edges only. */
module Walk {
  import opened Core
  import opened StoreSpec
  import opened Machine
  import opened Edges
  import opened Books
  import SD = SingleDriver

  // ---- walks ---------------------------------------------------------------------------------

  /** The steps entered, in order. */
  ghost function Entries(es: seq<Event>): seq<Option<Id>> {
    if es == [] then []
    else
      var last := es[|es| - 1];
      Entries(es[..|es| - 1]) + if last.kind.StateTransition? then [last.step] else []
  }

  /** In some context the edge out of step `s` is `next`. */
  ghost predicate Leads(wf: Workflow, s: Option<Id>, next: Option<Id>) {
    s.Some? && s.value in wf.steps && exists ctx :: EdgeOf(wf.steps[s.value], ctx, next)
  }

  /** A walk: it begins at the start, and every entry is the same step again (the
      one before was left unfinished) or where an edge of the one before leads. */
  ghost predicate IsWalk(wf: Workflow, es: seq<Option<Id>>) {
    && (es != [] ==> es[0] == Some(wf.start))
    && (forall i :: 0 <= i < |es| ==> es[i].Some? && es[i].value in wf.steps)
    && forall i :: 0 < i < |es| ==> es[i] == es[i - 1] || Leads(wf, es[i - 1], es[i])
  }

  /** The cursor at the end of a walk: its last step, unfinished, or where an edge
      of it leads; before the walk, the start. */
  ghost predicate Ahead(wf: Workflow, es: seq<Option<Id>>, cursor: Option<Id>) {
    if es == [] then cursor == Some(wf.start)
    else cursor == es[|es| - 1] || Leads(wf, es[|es| - 1], cursor)
  }

  /** A run has a result exactly when it has succeeded: the context's `result`, or
      else all of the context. */
  ghost predicate ResultOk(run: Run) {
    if !run.status.Succeeded? then run.result.None?
    else if "result" in run.context then run.result == Some(run.context["result"])
    else run.result == Some(Obj(run.context))
  }

  ghost predicate RowOk(env: Env, run: Run, log: seq<Event>) {
    var wf := WorkflowOf(env, run.info.workflow);
    && run.info.workflow in env.workflows && IsWalk(wf, Entries(log)) && Ahead(wf, Entries(log), run.cursor)
    && ResultOk(run)
  }

  /** The frame belongs to the cursor step, as itself or as its compensation. */
  ghost predicate InFrame(wf: Workflow, cursor: Option<Id>, f: Frame) {
    cursor == Some(f.main) && f.main in wf.steps && (!f.comp ==> f.step == f.main)
  }

  /** Where the driver is, against what it has entered so far. */
  ghost predicate PcOk(env: Env, run: Run, pc: Pc, es: seq<Option<Id>>) {
    var wf := WorkflowOf(env, run.info.workflow);
    match pc
    case Top(at) => run.cursor == Some(at) && Ahead(wf, es, run.cursor)
    case Failing(main) => run.cursor == Some(main) && es != [] && es[|es| - 1] == Some(main)
    case Advancing(f, next) =>
      && InFrame(wf, run.cursor, f) && !f.comp && es != [] && es[|es| - 1] == Some(f.main)
      && EdgeOf(wf.steps[f.step], run.context, next)
    case _ =>
      && InFrame(wf, run.cursor, pc.f) && es != [] && es[|es| - 1] == Some(pc.f.main)
      && NodeFits(StepOf(env, run.info.workflow, pc.f.step).node, pc)
  }

  ghost predicate DriverOk(env: Env, d: Driver, log: seq<Event>) {
    && d.run.info.workflow in env.workflows && d.run.result.None?
    && IsWalk(WorkflowOf(env, d.run.info.workflow), Entries(log + d.buffer))
    && PcOk(env, d.run, d.pc, Entries(log + d.buffer))
  }

  ghost predicate Inv(env: Env, w: World) {
    && SD.Inv(env, w)
    && (forall r :: r in w.s.tables.runs ==> RowOk(env, w.s.tables.runs[r], EventsOf(w.s.tables.events, r)))
    && (forall i :: i in w.drivers ==>
          DriverOk(env, w.drivers[i], EventsOf(w.s.tables.events, w.drivers[i].run.info.id)))
  }

  // ---- entries ---------------------------------------------------------------------------------

  lemma {:induction false} EntriesAppend(a: seq<Event>, b: seq<Event>)
    ensures Entries(a + b) == Entries(a) + Entries(b)
  {
    if b == [] {
      assert a + b == a;
    } else {
      var m := |b| - 1;
      assert (a + b)[..|a + b| - 1] == a + b[..m];
      EntriesAppend(a, b[..m]);
    }
  }

  lemma {:induction false} NoEntries(es: seq<Event>)
    requires Count(es) == 0
    ensures Entries(es) == []
  {
    if es != [] { NoEntries(es[..|es| - 1]); }
  }

  lemma {:induction false} AlikeEntries(a: seq<Event>, b: seq<Event>)
    requires Alike(a, b)
    ensures Entries(a) == Entries(b)
  {
    if a != [] {
      AlikeEntries(a[..|a| - 1], b[..|b| - 1]);
      assert a[|a| - 1].(payload := Null) == b[|a| - 1].(payload := Null);
    }
  }

  // ---- one step ----------------------------------------------------------------------------------

  ghost predicate InStep(pc: Pc) { !pc.Top? && !pc.Failing? && !pc.Advancing? }

  /** The program point fits the kind of node it is in. */
  ghost predicate NodeFits(node: Node, pc: Pc) {
    match pc
    case Think(_, _, _, _) => node.AgentNode?
    case Calls(_, _, _, _, _) => node.AgentNode?
    case Calling(_, _, _, _, _, _) => node.AgentNode?
    case Asking(_, p) => if p.ForNode? then node.ApprovalNode? else node.ToolNode?
    case Requesting(_, p) => if p.ForNode? then node.ApprovalNode? else node.ToolNode?
    case Answering(_, p, _) => if p.ForNode? then node.ApprovalNode? else node.ToolNode?
    case Executing(_, _, _, _) => node.ToolNode?
    case Recording(_, _, _) => node.ToolNode?
    case _ => true
  }

  /** Inside a step: on in a frame of the same main step, to failure, or, for the
      step itself, to its commit with its edge. */
  ghost predicate StepWalks(env: Env, d: Driver, p: Plan)
    requires InStep(d.pc)
  {
    var wf, f := d.run.info.workflow, d.pc.f;
    && p.cursor == d.run.cursor && p.steps == 0 && p.result == d.run.result
    && (p.goal.Goto? ==>
          match p.goal.pc
          case Top(_) => false
          case Failing(main) => main == f.main
          case Advancing(g, next) => g == f && !f.comp && EdgeOf(StepOf(env, wf, f.step), RunAfter(d, p).context, next)
          case _ =>
            && p.goal.pc.f.main == f.main && (!p.goal.pc.f.comp ==> !f.comp && p.goal.pc.f.step == f.step)
            && NodeFits(StepOf(env, wf, p.goal.pc.f.step).node, p.goal.pc))
  }

  lemma RaiseWalks(env: Env, d: Driver, e: Fault, p: Plan)
    requires InStep(d.pc) && p.cursor == d.run.cursor && p.steps == 0 && p.result == d.run.result
    ensures StepWalks(env, d, Raise(env, d, d.pc.f, e, p))
  {
  }

  lemma ReadyWalks(env: Env, s: Shared, d: Driver, f: Frame)
    requires d.pc == Ready(f)
    ensures StepWalks(env, d, PlanReady(env, s, d, f))
  {
    var step := StepOf(env, d.run.info.workflow, f.step);
    RaiseWalks(env, d, Broken, Idle(d));
    if step.node.BranchNode? { BranchWalks(env, d, f, step.node.arms); }
    else if step.node.ToolNode? { ToolWalks(env, s, d, f, step.node.tool); }
  }

  lemma BranchWalks(env: Env, d: Driver, f: Frame, arms: seq<Arm>)
    requires d.pc == Ready(f) && StepOf(env, d.run.info.workflow, f.step).node == BranchNode(arms)
    ensures StepWalks(env, d, PlanBranch(env, d, f, arms))
  {
    RaiseWalks(env, d, Broken, Idle(d));
    SelectIs(arms, StepOf(env, d.run.info.workflow, f.step).next, d.run.context);
  }

  lemma ToolWalks(env: Env, s: Shared, d: Driver, f: Frame, name: string)
    requires d.pc == Ready(f) && StepOf(env, d.run.info.workflow, f.step).node == ToolNode(name)
    ensures StepWalks(env, d, PlanTool(env, s, d, f, name))
  {
    RaiseWalks(env, d, Broken, Idle(d));
    var args := StepOf(env, d.run.info.workflow, f.step).args(d.run.context);
    if name in env.tools && args.Some? { GateWalks(env, d, f, env.tools[name].(name := name), args.value); }
  }

  lemma GateWalks(env: Env, d: Driver, f: Frame, tool: Tool, args: Dict)
    requires d.pc == Ready(f) && StepOf(env, d.run.info.workflow, f.step).node.ToolNode?
    ensures StepWalks(env, d, PlanGate(env, d, f, tool, args))
  {
  }

  lemma AgentWalks(env: Env, s: Shared, d: Driver, c: Choice)
    requires d.pc.Think? || d.pc.Calls? || d.pc.Calling?
    requires NodeFits(StepOf(env, d.run.info.workflow, d.pc.f.step).node, d.pc)
    ensures StepWalks(env, d, PlanFor(env, s, d, c))
  {
    RaiseWalks(env, d, Broken, Idle(d));
    RaiseWalks(env, d, Connector, Idle(d));
  }

  lemma ExecWalks(env: Env, s: Shared, d: Driver, c: Choice)
    requires d.pc.Executing? || d.pc.Recording?
    requires NodeFits(StepOf(env, d.run.info.workflow, d.pc.f.step).node, d.pc)
    ensures StepWalks(env, d, PlanFor(env, s, d, c))
  {
    RaiseWalks(env, d, Broken, Idle(d));
    RaiseWalks(env, d, Connector, Idle(d));
  }

  lemma AskWalks(env: Env, s: Shared, d: Driver, c: Choice)
    requires d.pc.Asking? || d.pc.Requesting? || d.pc.Pausing?
    requires NodeFits(StepOf(env, d.run.info.workflow, d.pc.f.step).node, d.pc)
    ensures StepWalks(env, d, PlanFor(env, s, d, c))
  {
    if d.pc.Asking? { AskingWalks(env, s, d, c); } else { PauseWalks(env, s, d, c); }
  }

  lemma AskingWalks(env: Env, s: Shared, d: Driver, c: Choice)
    requires d.pc.Asking? && NodeFits(StepOf(env, d.run.info.workflow, d.pc.f.step).node, d.pc)
    ensures StepWalks(env, d, PlanFor(env, s, d, c))
  {
    var f := d.pc.f;
    if d.sync {
      RaiseWalks(env, d, Broken, Idle(d));
    } else {
      var i := Latest(s.tables.approvals, d.run.info.tenant, d.run.info.id, f.step);
      if i.Some? && s.tables.approvals[i.value].status != ApprovalPending {
        var granted := s.tables.approvals[i.value].status == Approved;
        SettleWalks(env, d, d.pc.p, granted,
                    Idle(d).(acts := if granted then [Granted(d.id, d.run.info.id, f.step, i.value)] else [],
                             events := [Ev(d, ApprovalResolved, Some(f.step), 0.0, Bool(granted))]));
      }
    }
  }

  lemma SettleWalks(env: Env, d: Driver, purpose: Purpose, granted: bool, p: Plan)
    requires d.pc.Asking? || d.pc.Answering?
    requires NodeFits(StepOf(env, d.run.info.workflow, d.pc.f.step).node, d.pc) && purpose == d.pc.p
    requires p.cursor == d.run.cursor && p.steps == 0 && p.result == d.run.result && p.keep.None?
    ensures StepWalks(env, d, Settle(env, d, d.pc.f, purpose, granted, p))
  {
    RaiseWalks(env, d, Refused, p);
  }

  lemma PauseWalks(env: Env, s: Shared, d: Driver, c: Choice)
    requires d.pc.Requesting? || d.pc.Pausing?
    ensures StepWalks(env, d, PlanFor(env, s, d, c))
  {
  }

  lemma AnswerWalks(env: Env, s: Shared, d: Driver, c: Choice)
    requires d.pc.Answering? && NodeFits(StepOf(env, d.run.info.workflow, d.pc.f.step).node, d.pc)
    ensures StepWalks(env, d, PlanFor(env, s, d, c))
  {
  }

  lemma PlanWalks(env: Env, s: Shared, d: Driver, c: Choice)
    requires InStep(d.pc) && NodeFits(StepOf(env, d.run.info.workflow, d.pc.f.step).node, d.pc)
    ensures StepWalks(env, d, PlanFor(env, s, d, c))
  {
    if d.pc.Ready? { ReadyWalks(env, s, d, d.pc.f); }
    else if d.pc.Think? || d.pc.Calls? || d.pc.Calling? { AgentWalks(env, s, d, c); }
    else if d.pc.Executing? || d.pc.Recording? { ExecWalks(env, s, d, c); }
    else if d.pc.Answering? { AnswerWalks(env, s, d, c); }
    else { AskWalks(env, s, d, c); }
  }

  // ---- what the step does to the walk --------------------------------------------------------------

  /** The entries after the step, with and without what is emitted late. */
  lemma EntriesAfter(d: Driver, p: Plan, log: seq<Event>)
    requires Count(p.late) == 0
    ensures var es := Entries(log + d.buffer) + Entries(p.events);
            && Entries(log + (d.buffer + p.events)) == es
            && Entries(log + (d.buffer + p.events + p.late)) == es
            && Entries(log + (d.buffer + p.events) + p.late) == es
  {
    EntriesJoin(log, d.buffer, p.events);
    EntriesJoin(log, d.buffer + p.events, p.late);
    NoEntries(p.late);
  }

  lemma EntriesJoin(a: seq<Event>, b: seq<Event>, c: seq<Event>)
    ensures Entries(a + (b + c)) == Entries(a + b) + Entries(c) && Entries(a + b + c) == Entries(a + b) + Entries(c)
  {
    assert a + (b + c) == a + b + c;
    EntriesAppend(a + b, c);
  }

  /** The walk goes on with the new entry, if there is one. */
  lemma WalkOn(wf: Workflow, es: seq<Option<Id>>, at: Id)
    requires IsWalk(wf, es) && Ahead(wf, es, Some(at)) && at in wf.steps
    ensures IsWalk(wf, es + [Some(at)])
  {
  }

  ghost predicate Onward(env: Env, d: Driver, p: Plan, es: seq<Option<Id>>) {
    var wf, run := WorkflowOf(env, d.run.info.workflow), RunAfter(d, p);
    && IsWalk(wf, es) && Ahead(wf, es, run.cursor) && ResultOk(run)
    && (p.goal.Goto? ==> PcOk(env, run, p.goal.pc, es) && run.result.None?)
  }

  lemma StepOnward(env: Env, s: Shared, d: Driver, c: Choice, es: seq<Option<Id>>)
    requires InStep(d.pc) && !Terminal(d.run.status) && d.run.result.None? && d.run.cursor.Some?
    requires IsWalk(WorkflowOf(env, d.run.info.workflow), es)
    requires PcOk(env, d.run, d.pc, es)
    ensures var p := PlanFor(env, s, d, c); Entries(p.events) == [] && Onward(env, d, p, es)
  {
    PlanWalks(env, s, d, c);
    SD.PlanSound(env, s, d, c);
    NoEntries(PlanFor(env, s, d, c).events);
  }

  lemma TopOnward(env: Env, s: Shared, d: Driver, c: Choice, es: seq<Option<Id>>)
    requires d.pc.Top? && !Terminal(d.run.status) && d.run.result.None? && IsWalk(WorkflowOf(env, d.run.info.workflow), es) && PcOk(env, d.run, d.pc, es)
    ensures var p := PlanFor(env, s, d, c); Onward(env, d, p, es + Entries(p.events))
  {
    var wf, p := WorkflowOf(env, d.run.info.workflow), PlanFor(env, s, d, c);
    if |p.events| == 1 {
      OneEntry(p.events[0]);
      assert p.events == [p.events[0]];
    }
    if p.steps == 1 {
      WalkOn(wf, es, d.pc.at);
    } else {
      assert es + [] == es;
    }
  }

  lemma OneEntry(e: Event)
    ensures Entries([e]) == if e.kind.StateTransition? then [e.step] else []
  {
    assert [e][..0] == [];
  }

  lemma EndOnward(env: Env, s: Shared, d: Driver, c: Choice, es: seq<Option<Id>>)
    requires (d.pc.Advancing? || d.pc.Failing?) && !Terminal(d.run.status) && d.run.result.None?
    requires IsWalk(WorkflowOf(env, d.run.info.workflow), es) && PcOk(env, d.run, d.pc, es)
    ensures var p := PlanFor(env, s, d, c); Entries(p.events) == [] && Onward(env, d, p, es)
  {
    var wf, p := WorkflowOf(env, d.run.info.workflow), PlanFor(env, s, d, c);
    SD.PlanSound(env, s, d, c);
    NoEntries(p.events);
    if d.pc.Advancing? { assert Leads(wf, es[|es| - 1], d.pc.next); }
  }

  lemma PlanOnward(env: Env, s: Shared, d: Driver, c: Choice, es: seq<Option<Id>>)
    requires !Terminal(d.run.status) && d.run.result.None?
    requires IsWalk(WorkflowOf(env, d.run.info.workflow), es) && PcOk(env, d.run, d.pc, es)
    ensures var p := PlanFor(env, s, d, c); Onward(env, d, p, es + Entries(p.events))
  {
    assert es + [] == es;
    if d.pc.Top? { TopOnward(env, s, d, c, es); }
    else if d.pc.Advancing? || d.pc.Failing? { EndOnward(env, s, d, c, es); }
    else { StepOnward(env, s, d, c, es); }
  }

  // ---- every action, every serial run ----------------------------------------------------------------

  /** The step of driver `d` along plan `p`, the walk going on. */
  ghost predicate GoesOn(env: Env, s: Shared, d: Driver, p: Plan) {
    && SD.Sound(env, s, d, p) && SD.DriverInv(env, s.tables, d) && d.run.info.workflow in env.workflows
    && Onward(env, d, p, Entries(EventsOf(s.tables.events, d.run.info.id) + d.buffer) + Entries(p.events))
  }

  lemma StepRow(env: Env, s: Shared, d: Driver, p: Plan, r: Id)
    requires GoesOn(env, s, d, p) && r in s.tables.runs
    requires RowOk(env, s.tables.runs[r], EventsOf(s.tables.events, r))
    ensures var t := TablesAfter(s.tables, d, p); r in t.runs && RowOk(env, t.runs[r], EventsOf(t.events, r))
  {
    SD.StepTables(env, s, d, p);
    SD.NewLog(s, d, p, r);
    assert EventsOf(s.tables.events, r) + [] == EventsOf(s.tables.events, r);
    EntriesAfter(d, p, EventsOf(s.tables.events, d.run.info.id));
  }

  lemma StepDriver(env: Env, s: Shared, d: Driver, p: Plan)
    requires GoesOn(env, s, d, p) && p.goal.Goto?
    ensures DriverOk(env, Perform(s, d, p).o.d, EventsOf(TablesAfter(s.tables, d, p).events, d.run.info.id))
  {
    SD.StepTables(env, s, d, p);
    SD.NewLog(s, d, p, d.run.info.id);
    EntriesAfter(d, p, EventsOf(s.tables.events, d.run.info.id));
    assert [] + p.late == p.late;
  }

  lemma StepOther(env: Env, s: Shared, d: Driver, p: Plan, e: Driver)
    requires GoesOn(env, s, d, p) && e.run.info.id != d.run.info.id
    requires DriverOk(env, e, EventsOf(s.tables.events, e.run.info.id))
    ensures DriverOk(env, e, EventsOf(TablesAfter(s.tables, d, p).events, e.run.info.id))
  {
    SD.StepTables(env, s, d, p);
    SD.NewLog(s, d, p, e.run.info.id);
    assert EventsOf(s.tables.events, e.run.info.id) + [] == EventsOf(s.tables.events, e.run.info.id);
  }

  lemma DriveGoesOn(env: Env, w: World, i: nat, c: Choice)
    requires Inv(env, w) && i in w.drivers
    ensures GoesOn(env, w.s, w.drivers[i], PlanFor(env, w.s, w.drivers[i], c))
  {
    var d := w.drivers[i];
    SD.PlanSound(env, w.s, d, c);
    PlanOnward(env, w.s, d, c, Entries(EventsOf(w.s.tables.events, d.run.info.id) + d.buffer));
  }

  lemma DriveInv(env: Env, w: World, a: Action)
    requires Inv(env, w) && a.Drive?
    ensures Inv(env, Next(env, w, a))
  {
    SD.DriveInv(env, w, a);
    if a.d in w.drivers {
      var d := w.drivers[a.d];
      var p := PlanFor(env, w.s, d, a.c);
      DriveGoesOn(env, w, a.d, a.c);
      PerformOk(env, w, a.d, p);
    }
  }

  ghost predicate Rest(env: Env, w: World) {
    && (forall r :: r in w.s.tables.runs ==> RowOk(env, w.s.tables.runs[r], EventsOf(w.s.tables.events, r)))
    && (forall i :: i in w.drivers ==>
          DriverOk(env, w.drivers[i], EventsOf(w.s.tables.events, w.drivers[i].run.info.id)))
  }

  lemma PerformOk(env: Env, w: World, i: nat, p: Plan)
    requires Inv(env, w) && i in w.drivers && GoesOn(env, w.s, w.drivers[i], p)
    ensures var t := Perform(w.s, w.drivers[i], p);
            Rest(env, w.(s := t.s, drivers := if t.o.Live? then w.drivers[i := t.o.d] else w.drivers - {i}))
  {
    var d := w.drivers[i];
    var t := TablesAfter(w.s.tables, d, p);
    SD.StepTables(env, w.s, d, p);
    forall r | r in t.runs ensures RowOk(env, t.runs[r], EventsOf(t.events, r)) { StepRow(env, w.s, d, p, r); }
    if p.goal.Goto? { StepDriver(env, w.s, d, p); }
    forall j | j in w.drivers && j != i
      ensures DriverOk(env, w.drivers[j], EventsOf(t.events, w.drivers[j].run.info.id))
    {
      StepOther(env, w.s, d, p, w.drivers[j]);
    }
    TurnTaken(env, w, i, Perform(w.s, d, p));
  }

  lemma TurnTaken(env: Env, w: World, i: nat, t: Turn)
    requires i in w.drivers
    requires forall r :: r in t.s.tables.runs ==> RowOk(env, t.s.tables.runs[r], EventsOf(t.s.tables.events, r))
    requires forall j :: j in w.drivers && j != i ==>
               DriverOk(env, w.drivers[j], EventsOf(t.s.tables.events, w.drivers[j].run.info.id))
    requires t.o.Live? ==> DriverOk(env, t.o.d, EventsOf(t.s.tables.events, t.o.d.run.info.id))
    ensures Rest(env, w.(s := t.s, drivers := if t.o.Live? then w.drivers[i := t.o.d] else w.drivers - {i}))
  {
  }

  lemma FireInv(env: Env, w: World, a: Action)
    requires Inv(env, w) && a.Fire?
    ensures Inv(env, Next(env, w, a))
  {
    SD.FireInv(env, w, a);
    if a.wf in env.workflows && Fresh(w.s.tables, NewRun(env, a)) {
      SD.NoEvents(w.s.tables.events, w.s.tables.runs, a.id);
      Fired(env, NewRun(env, a), w.nextId, a.sync, Event(a.id, a.tenant, TriggerFired, None, 0.0, Obj(a.trigger)));
    }
  }

  lemma Fired(env: Env, run: Run, id: nat, sync: bool, first: Event)
    requires run.info.workflow in env.workflows && run.cursor == Some(WorkflowOf(env, run.info.workflow).start)
    requires run.result.None? && run.status == Pending && first.kind == TriggerFired
    ensures RowOk(env, run, []) && DriverOk(env, Driving(env, id, sync, run, [first]), [])
  {
    FiredEntries(first);
    assert [] + [first] == [first];
  }

  lemma FiredEntries(e: Event)
    requires e.kind == TriggerFired
    ensures Entries([]) == [] && Entries([e]) == []
  {
    assert [e][..0] == [];
  }

  lemma StartInv(env: Env, w: World, a: Action)
    requires Inv(env, w) && a.Start? && SD.Serial(w, a)
    ensures Inv(env, Next(env, w, a))
  {
    SD.StartInv(env, w, a);
    if a.id in w.s.tables.runs {
      assert EventsOf(w.s.tables.events, a.id) + [] == EventsOf(w.s.tables.events, a.id);
      assert SD.RowInv(env, w.s.tables.runs[a.id], EventsOf(w.s.tables.events, a.id));
    }
  }

  lemma CancelInv(env: Env, w: World, a: Action)
    requires Inv(env, w) && a.Cancel? && SD.Serial(w, a)
    ensures Inv(env, Next(env, w, a))
  {
    SD.CancelInv(env, w, a);
    if SD.Cancelable(w.s.tables, a.tenant, a.id) {
      var t := CancelRun(w.s.tables, a.tenant, a.id).value.0;
      forall r | r in t.runs ensures RowOk(env, t.runs[r], EventsOf(t.events, r)) { CanceledRow(env, w.s.tables, a.tenant, a.id, r); }
      forall i | i in w.drivers ensures DriverOk(env, w.drivers[i], EventsOf(t.events, w.drivers[i].run.info.id)) {
        SD.CanceledLog(w.s.tables, a.tenant, a.id, w.drivers[i].run.info.id);
        var log := EventsOf(w.s.tables.events, w.drivers[i].run.info.id);
        assert log + [] == log;
      }
    }
  }

  lemma CanceledRow(env: Env, t: Tables, tenant: Id, id: Id, r: Id)
    requires SD.Rows(env, t) && SD.Cancelable(t, tenant, id) && r in t.runs && RowOk(env, t.runs[r], EventsOf(t.events, r))
    ensures var t' := CancelRun(t, tenant, id).value.0; r in t'.runs && RowOk(env, t'.runs[r], EventsOf(t'.events, r))
  {
    var last := Event(id, tenant, RunCanceled, None, 0.0, PURGED);
    SD.CanceledLog(t, tenant, id, r);
    EntriesAppend(EventsOf(t.events, r), [last]);
    One(last);
    NoEntries([last]);
    assert EventsOf(t.events, r) + [] == EventsOf(t.events, r);
  }

  lemma PurgeInv(env: Env, w: World, a: Action)
    requires Inv(env, w) && a.PurgePayloads?
    ensures Inv(env, Next(env, w, a))
  {
    SD.PurgeInv(env, w, a);
    var t := Purge(w.s.tables, a.tenant, a.stale);
    SD.PurgedRows(env, w.s.tables, a.tenant, a.stale);
    forall r ensures Alike(EventsOf(w.s.tables.events, r), EventsOf(t.events, r)) {
      AlikeEvents(w.s.tables.events, t.events, r);
    }
    forall r | r in t.runs ensures RowOk(env, t.runs[r], EventsOf(t.events, r)) {
      AlikeEntries(EventsOf(w.s.tables.events, r), EventsOf(t.events, r));
    }
    forall i | i in w.drivers ensures DriverOk(env, w.drivers[i], EventsOf(t.events, w.drivers[i].run.info.id)) {
      var id, buffer := w.drivers[i].run.info.id, w.drivers[i].buffer;
      EntriesAppend(EventsOf(w.s.tables.events, id), buffer);
      EntriesAppend(EventsOf(t.events, id), buffer);
      AlikeEntries(EventsOf(w.s.tables.events, id), EventsOf(t.events, id));
    }
  }

  lemma OtherInv(env: Env, w: World, a: Action)
    requires Inv(env, w) && (a.Crash? || a.Arrive? || a.Resolve?)
    ensures Inv(env, Next(env, w, a))
  {
    SD.OtherInv(env, w, a);
    if a.Resolve? && ResolveApproval(w.s.tables, a.tenant, a.approval, a.approved).Some? {
      var t := ResolveApproval(w.s.tables, a.tenant, a.approval, a.approved).value;
      assert t.runs == w.s.tables.runs && t.events == w.s.tables.events;
    }
  }

  lemma NextInv(env: Env, w: World, a: Action)
    requires Inv(env, w) && SD.Serial(w, a)
    ensures Inv(env, Next(env, w, a))
  {
    match a
    case Fire(_, _, _, _, _, _, _) => FireInv(env, w, a);
    case Start(_, _, _) => StartInv(env, w, a);
    case Drive(_, _) => DriveInv(env, w, a);
    case Cancel(_, _) => CancelInv(env, w, a);
    case PurgePayloads(_, _) => PurgeInv(env, w, a);
    case Crash(_) => OtherInv(env, w, a);
    case Arrive(_) => OtherInv(env, w, a);
    case Resolve(_, _, _) => OtherInv(env, w, a);
  }

  lemma {:induction false} ExecInv(env: Env, w: World, acts: seq<Action>)
    requires Inv(env, w) && SD.SerialRun(env, w, acts)
    ensures Inv(env, Exec(env, w, acts))
    decreases acts
  {
    if acts != [] {
      NextInv(env, w, acts[0]);
      ExecInv(env, Next(env, w, acts[0]), acts[1..]);
    }
  }

  // ---- the theorems ------------------------------------------------------------------------------------

  /** In every state of every serial run: the committed step entries of a run are a
      walk over its graph from the start, each entry the same step again or at an
      edge of the one before; the cursor is where that walk goes on; a run that has
      succeeded came to a step with no edge, and only such a run has a result, the
      context's `result` or else all of the context. */
  lemma WalkFollowsEdges(env: Env, acts: seq<Action>, r: Id)
    requires SD.SerialRun(env, INIT, acts) && r in Exec(env, INIT, acts).s.tables.runs
    ensures var t := Exec(env, INIT, acts).s.tables;
            var run, wf, es := t.runs[r], WorkflowOf(env, t.runs[r].info.workflow), Entries(EventsOf(t.events, r));
            && IsWalk(wf, es) && Ahead(wf, es, run.cursor) && ResultOk(run)
            && (run.status == Succeeded ==> es != [] && Leads(wf, es[|es| - 1], None))
  {
    ExecInv(env, INIT, acts);
    var t := Exec(env, INIT, acts).s.tables;
    assert SD.RowInv(env, t.runs[r], EventsOf(t.events, r));
  }

  /** Whenever an action changes the committed cursor of a run, it moves it along
      the edge of the step it was at, taken in the context committed with it. */
  lemma CursorMoves(env: Env, acts: seq<Action>, a: Action, r: Id)
    requires SD.SerialRun(env, INIT, acts) && SD.Serial(Exec(env, INIT, acts), a)
    requires r in Exec(env, INIT, acts).s.tables.runs
    ensures var t, t' := Exec(env, INIT, acts).s.tables, Next(env, Exec(env, INIT, acts), a).s.tables;
            r in t'.runs && Moved(env, t.runs[r], t'.runs[r])
  {
    ExecInv(env, INIT, acts);
    NextMoves(env, Exec(env, INIT, acts), a, r);
  }

  lemma NextMoves(env: Env, w: World, a: Action, r: Id)
    requires Inv(env, w) && r in w.s.tables.runs
    ensures var t := Next(env, w, a).s.tables; r in t.runs && Moved(env, w.s.tables.runs[r], t.runs[r])
  {
    if a.Drive? && a.d in w.drivers {
      var log := EventsOf(w.s.tables.events, w.drivers[a.d].run.info.id);
      assert DriverOk(env, w.drivers[a.d], log);
      DriverMoves(env, w, a.d, a.c, log, r);
    } else {
      OthersStay(env, w, a, r);
    }
  }

  lemma DriverMoves(env: Env, w: World, i: nat, c: Choice, log: seq<Event>, r: Id)
    requires i in w.drivers && r in w.s.tables.runs
    requires SD.DriverInv(env, w.s.tables, w.drivers[i]) && DriverOk(env, w.drivers[i], log)
    ensures var t := Next(env, w, Drive(i, c)).s.tables; r in t.runs && Moved(env, w.s.tables.runs[r], t.runs[r])
  {
    var d := w.drivers[i];
    DriveMoves(env, w.s, d, c, Entries(log + d.buffer), r);
  }

  ghost predicate Moved(env: Env, run: Run, run': Run) {
    run'.cursor != run.cursor ==>
      var wf, c := WorkflowOf(env, run.info.workflow), run.cursor;
      c.Some? && c.value in wf.steps && EdgeOf(wf.steps[c.value], run'.context, run'.cursor)
  }

  lemma DriveMoves(env: Env, s: Shared, d: Driver, c: Choice, es: seq<Option<Id>>, r: Id)
    requires SD.DriverInv(env, s.tables, d) && PcOk(env, d.run, d.pc, es) && r in s.tables.runs
    ensures var t := TablesAfter(s.tables, d, PlanFor(env, s, d, c)); r in t.runs && Moved(env, s.tables.runs[r], t.runs[r])
  {
    SD.PlanSound(env, s, d, c);
    SD.StepTables(env, s, d, PlanFor(env, s, d, c));
    CommitMoves(env, s, d, c, es);
  }

  lemma OthersStay(env: Env, w: World, a: Action, r: Id)
    requires r in w.s.tables.runs && (!a.Drive? || a.d !in w.drivers)
    ensures var t := Next(env, w, a).s.tables; r in t.runs && t.runs[r].cursor == w.s.tables.runs[r].cursor
  {
  }

  lemma CommitMoves(env: Env, s: Shared, d: Driver, c: Choice, es: seq<Option<Id>>)
    requires PcOk(env, d.run, d.pc, es)
    ensures var p := PlanFor(env, s, d, c);
            p.cursor != d.run.cursor ==>
              var wf := WorkflowOf(env, d.run.info.workflow);
              && d.run.cursor.Some? && d.run.cursor.value in wf.steps
              && EdgeOf(wf.steps[d.run.cursor.value], RunAfter(d, p).context, p.cursor)
  {
    if InStep(d.pc) { PlanWalks(env, s, d, c); }
  }
}
