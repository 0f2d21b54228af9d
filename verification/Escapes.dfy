/** When an exception leaves the engine without the run being marked FAILED, and
    what it leaves behind. */
module Escapes {
  import opened Core
  import opened StoreSpec
  import opened Machine
  import opened Edges
  import SD = SingleDriver

  // ---- the guards ----------------------------------------------------------------------------

  /** Running the step raises right away: unregistered names, arguments that do
      not resolve, another tenant's ledger row, a raising test, an unknown node. */
  ghost predicate NodeBreaks(env: Env, s: Shared, run: Run, step: Id) {
    var st := StepOf(env, run.info.workflow, step);
    match st.node
    case AgentNode(agent) => agent !in env.agents || st.args(run.context).None?
    case ToolNode(tool) =>
      || tool !in env.tools || st.args(run.context).None?
      || (&& env.tools[tool].sideEffect
          && var key := EffectKey(run.info.id, step, tool);
             key in s.tables.effects && s.tables.effects[key].tenant != run.info.tenant)
    case BranchNode(arms) => TestRaises(arms, run.context)
    case ApprovalNode => false
    case TerminateNode => false
    case UnknownNode => true
  }

  /** The guard of every branch on which an exception leaves the engine uncaught,
      program point by program point. */
  ghost predicate EscapePoint(env: Env, s: Shared, d: Driver, c: Choice) {
    var wf := WorkflowOf(env, d.run.info.workflow);
    match d.pc
    case Top(at) =>
      || at !in wf.steps
      || (if OverBudget(wf, d.run) then !CanCommit(s, d) else wf.steps[at].maxAttempts < 1)
    case Ready(f) => !f.comp && NodeBreaks(env, s, d.run, f.step)
    case Think(f, i, _, _) => !f.comp && (AgentOf(env, d.run.info.workflow, f).maxSteps <= i || c.Throw?)
    case Calls(f, _, _, calls, _) => !f.comp && calls != [] && calls[0].tool !in env.tools
    case Calling(f, _, _, calls, _, _) => !f.comp && (calls == [] || calls[0].tool !in env.tools)
    case Asking(f, _) => !f.comp && d.sync && !Owns(s.tables, d.run.info.tenant, d.run.info.id)
    case Requesting(f, _) => !f.comp && !Owns(s.tables, d.run.info.tenant, d.run.info.id)
    case Pausing(f) => !f.comp && !CanCommit(s, d)
    case Answering(f, _, approval) =>
      && !f.comp
      && (|| c.Throw?
          || (c.Answer? && (|s.tables.approvals| <= approval || s.tables.approvals[approval].tenant != d.run.info.tenant)))
    case Executing(f, tool, _, _) => !f.comp && tool !in env.tools
    case Recording(f, tool, _) => !f.comp && tool !in env.tools
    case Advancing(_, _) => !CanCommit(s, d)
    case Failing(_) => !CanCommit(s, d)
  }

  // ---- exactly there ---------------------------------------------------------------------------

  ghost predicate Escapes(p: Plan) {
    p.goal == Stop(EndEscaped)
  }

  lemma ReadyEscapes(env: Env, s: Shared, d: Driver, f: Frame)
    ensures Escapes(PlanReady(env, s, d, f)) <==> !f.comp && NodeBreaks(env, s, d.run, f.step)
    ensures PlanReady(env, s, d, f).op.Nothing?
  {
    var st := StepOf(env, d.run.info.workflow, f.step);
    if st.node.BranchNode? { SelectIs(st.node.arms, st.next, d.run.context); }
    else if st.node.ToolNode? { ToolEscapes(env, s, d, f, st.node.tool); }
  }

  lemma ToolEscapes(env: Env, s: Shared, d: Driver, f: Frame, tool: string)
    requires StepOf(env, d.run.info.workflow, f.step).node == ToolNode(tool)
    ensures Escapes(PlanTool(env, s, d, f, tool)) <==> !f.comp && NodeBreaks(env, s, d.run, f.step)
    ensures PlanTool(env, s, d, f, tool).op.Nothing?
  {
  }

  lemma AgentEscapes(env: Env, s: Shared, d: Driver, c: Choice)
    requires d.pc.Think? || d.pc.Calls? || d.pc.Calling?
    ensures Escapes(PlanFor(env, s, d, c)) <==> EscapePoint(env, s, d, c)
  {
  }

  lemma AskEscapes(env: Env, s: Shared, d: Driver, c: Choice)
    requires d.pc.Asking? || d.pc.Requesting? || d.pc.Pausing?
    ensures Escapes(PlanFor(env, s, d, c)) <==> EscapePoint(env, s, d, c)
    ensures Escapes(PlanFor(env, s, d, c)) ==> PlanFor(env, s, d, c).op.Nothing?
  {
  }

  lemma AnswerEscapes(env: Env, s: Shared, d: Driver, c: Choice)
    requires d.pc.Answering?
    ensures Escapes(PlanFor(env, s, d, c)) <==> EscapePoint(env, s, d, c)
    ensures Escapes(PlanFor(env, s, d, c)) ==> PlanFor(env, s, d, c).op.Nothing?
  {
  }

  lemma RestEscapes(env: Env, s: Shared, d: Driver, c: Choice)
    requires d.pc.Executing? || d.pc.Recording? || d.pc.Top? || d.pc.Advancing? || d.pc.Failing?
    ensures Escapes(PlanFor(env, s, d, c)) <==> EscapePoint(env, s, d, c)
    ensures Escapes(PlanFor(env, s, d, c)) ==> PlanFor(env, s, d, c).op.Nothing?
  {
  }

  /** In every state and whatever is answered: an exception leaves the engine
      uncaught exactly on those guards, and then the tables stay as they are. */
  lemma EscapesExactly(env: Env, s: Shared, d: Driver, c: Choice)
    ensures DriverStep(env, s, d, c).o == Ended(EndEscaped) <==> EscapePoint(env, s, d, c)
    ensures EscapePoint(env, s, d, c) ==> DriverStep(env, s, d, c).s.tables == s.tables
  {
    PlanEscapes(env, s, d, c);
  }

  lemma PlanEscapes(env: Env, s: Shared, d: Driver, c: Choice)
    ensures Escapes(PlanFor(env, s, d, c)) <==> EscapePoint(env, s, d, c)
    ensures Escapes(PlanFor(env, s, d, c)) ==> PlanFor(env, s, d, c).op.Nothing?
  {
    if d.pc.Ready? { ReadyEscapes(env, s, d, d.pc.f); }
    else if d.pc.Think? || d.pc.Calls? || d.pc.Calling? { AgentEscapes(env, s, d, c); }
    else if d.pc.Asking? || d.pc.Requesting? || d.pc.Pausing? { AskEscapes(env, s, d, c); }
    else if d.pc.Answering? { AnswerEscapes(env, s, d, c); }
    else { RestEscapes(env, s, d, c); }
  }

  // ---- what a resume leaves --------------------------------------------------------------------

  /** The status a resume leaves in the row, by the way it ends. */
  ghost predicate Leaves(how: End, before: RunStatus, after: RunStatus) {
    match how
    case EndFailed => after == Failed
    case EndSucceeded => after == Succeeded
    case EndPaused => after == WaitingApproval
    case EndEscaped => after == before && !Terminal(before)
  }

  ghost predicate StopsWith(p: Plan) {
    p.goal.Stop? && p.goal.how != EndEscaped ==>
      p.op.Commit? && p.status == match p.goal.how
                                  case EndFailed => Failed
                                  case EndSucceeded => Succeeded
                                  case _ => WaitingApproval
  }

  lemma ReadyStops(env: Env, s: Shared, d: Driver, f: Frame)
    ensures StopsWith(PlanReady(env, s, d, f))
  {
  }

  lemma AgentStops(env: Env, s: Shared, d: Driver, c: Choice)
    requires d.pc.Think? || d.pc.Calls? || d.pc.Calling?
    ensures StopsWith(PlanFor(env, s, d, c))
  {
  }

  lemma AskStops(env: Env, s: Shared, d: Driver, c: Choice)
    requires d.pc.Asking? || d.pc.Requesting? || d.pc.Pausing? || d.pc.Answering?
    ensures StopsWith(PlanFor(env, s, d, c))
  {
  }

  lemma PlanStops(env: Env, s: Shared, d: Driver, c: Choice)
    ensures StopsWith(PlanFor(env, s, d, c))
  {
    if d.pc.Ready? { ReadyStops(env, s, d, d.pc.f); }
    else if d.pc.Think? || d.pc.Calls? || d.pc.Calling? { AgentStops(env, s, d, c); }
    else if d.pc.Asking? || d.pc.Requesting? || d.pc.Pausing? || d.pc.Answering? { AskStops(env, s, d, c); }
  }

  lemma StopLeaves(env: Env, s: Shared, d: Driver, c: Choice)
    requires SD.DriverInv(env, s.tables, d) && DriverStep(env, s, d, c).o.Ended?
    ensures var t := DriverStep(env, s, d, c);
            var id := d.run.info.id;
            id in t.s.tables.runs && Leaves(t.o.how, s.tables.runs[id].status, t.s.tables.runs[id].status)
  {
    PlanStops(env, s, d, c);
    PlanEscapes(env, s, d, c);
    SD.PlanSound(env, s, d, c);
    SD.StepTables(env, s, d, PlanFor(env, s, d, c));
  }

  /** The end of a resume, in any state a serial run reaches. A resume that raises
      leaves the row FAILED exactly when it ended by a checkpointed failure; it
      escapes exactly on the guards above, and then every table is as it was and
      the row is the non-terminal one committed last. */
  lemma RaisingResume(env: Env, acts: seq<Action>, i: nat, c: Choice)
    requires SD.SerialRun(env, INIT, acts) && i in Exec(env, INIT, acts).drivers
    requires i !in Next(env, Exec(env, INIT, acts), Drive(i, c)).drivers
    ensures var w := Exec(env, INIT, acts);
            var d := w.drivers[i];
            var how := DriverStep(env, w.s, d, c).o;
            var t := Next(env, w, Drive(i, c)).s.tables;
            && d.run.info.id in w.s.tables.runs && d.run.info.id in t.runs
            && (t.runs[d.run.info.id].status == Failed <==> how == Ended(EndFailed))
            && (how == Ended(EndEscaped) <==> EscapePoint(env, w.s, d, c))
            && (EscapePoint(env, w.s, d, c) ==> t == w.s.tables && !Terminal(t.runs[d.run.info.id].status))
  {
    SD.ExecInv(env, INIT, acts);
    var w := Exec(env, INIT, acts);
    StopLeaves(env, w.s, w.drivers[i], c);
    EscapesExactly(env, w.s, w.drivers[i], c);
  }

  /** Somewhere on the path the driver meets one of the guards. */
  ghost predicate MeetsGuard(env: Env, t: Turn, ms: seq<Micro>)
    decreases ms
  {
    && ms != [] && t.o.Live?
    && ((ms[0].Choose? && EscapePoint(env, t.s, t.o.d, ms[0].c)) || MeetsGuard(env, MicroStep(env, t, ms[0]), ms[1..]))
  }

  /** A resume escapes exactly when its path meets a guard. */
  lemma {:induction false} PathEscapes(env: Env, t: Turn, ms: seq<Micro>)
    requires t.o.Live?
    ensures Steps(env, t, ms).o == Ended(EndEscaped) <==> MeetsGuard(env, t, ms)
    decreases ms
  {
    if ms != [] {
      var t' := MicroStep(env, t, ms[0]);
      if ms[0].Choose? { EscapesExactly(env, t.s, t.o.d, ms[0].c); }
      if t'.o.Live? { PathEscapes(env, t', ms[1..]); }
    }
  }
}
