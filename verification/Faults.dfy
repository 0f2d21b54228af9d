/** What becomes of a step that fails: retries, compensation and failure, said per
    event and over whole resumes. */
module Faults {
  import opened Core
  import opened StoreSpec
  import opened Machine
  import EO = ExactlyOnce
  import E = Escapes
  import Edges

  // ---- the two ways a step fails ---------------------------------------------------------------

  /** The connector gives up on a call in progress. */
  ghost predicate CallFails(env: Env, d: Driver, c: Choice) {
    && c.FailCall?
    && (|| (d.pc.Executing? && d.pc.tool in env.tools)
        || (d.pc.Calling? && d.pc.calls != [] && d.pc.calls[0].tool in env.tools))
  }

  /** The gate denies a tool node's call that the ledger does not answer. */
  ghost predicate GateDenies(env: Env, s: Shared, run: Run, step: Id) {
    var st := StepOf(env, run.info.workflow, step);
    && st.node.ToolNode? && st.node.tool in env.tools && st.args(run.context).Some?
    && var tool := env.tools[st.node.tool].(name := st.node.tool);
    && var key := EffectKey(run.info.id, step, tool.name);
    && (tool.sideEffect && key in s.tables.effects ==>
          s.tables.effects[key].tenant == run.info.tenant && s.tables.effects[key].result == Null)
    && Gate(env, SystemAgent(tool.name), tool, st.args(run.context).value, run.context) == Deny
  }

  /** Denied by the gate, by a rejection on record, or by the approver. */
  ghost predicate Refuses(env: Env, s: Shared, d: Driver, c: Choice) {
    match d.pc
    case Ready(f) => GateDenies(env, s, d.run, f.step)
    case Asking(f, _) =>
      !d.sync && exists i: nat :: Latest(s.tables.approvals, d.run.info.tenant, d.run.info.id, f.step) == Some(i) &&
                                  s.tables.approvals[i].status == Rejected
    case Answering(_, _, a) =>
      c == Answer(false) && a < |s.tables.approvals| && s.tables.approvals[a].tenant == d.run.info.tenant
    case _ => false
  }

  /** The step that compensates `f`, if it names one that exists. */
  ghost function Compensator(env: Env, wf: Id, f: Frame): Option<Id> {
    var c := StepOf(env, wf, f.step).compensate;
    if c.Some? && c.value != "" && c.value in WorkflowOf(env, wf).steps then c else None
  }

  ghost predicate LastAttempt(env: Env, d: Driver)
    requires d.pc.Executing? || d.pc.Calling?
  {
    d.pc.f.attempt >= StepOf(env, d.run.info.workflow, d.pc.f.step).maxAttempts
  }

  /** The last attempt of the step has failed. */
  ghost predicate Exhausts(env: Env, d: Driver, c: Choice) {
    CallFails(env, d, c) && LastAttempt(env, d)
  }

  ghost predicate InStep(pc: Pc) { !pc.Top? && !pc.Failing? && !pc.Advancing? }

  ghost predicate InMain(pc: Pc) { InStep(pc) && !pc.f.comp }

  ghost predicate InComp(pc: Pc, g: Frame) { InStep(pc) && pc.f == g && g.comp }

  // ---- one event ---------------------------------------------------------------------------------

  function Note(run: Run, kind: Kind, step: Id, about: Id): Event {
    Event(run.info.id, run.info.tenant, kind, Some(step), 0.0, Str(about))
  }

  /** A failed call of a main step: attempted again while attempts are left; then
      the compensating step is announced and about to be run, once and as its
      first attempt; with none, the run is about to fail. */
  lemma FailedCall(env: Env, s: Shared, d: Driver, c: Choice)
    requires CallFails(env, d, c) && !d.pc.f.comp
    ensures var t, f := DriverStep(env, s, d, c), d.pc.f;
            var retry, comp := Note(d.run, StepRetry, f.step, f.step), Compensator(env, d.run.info.workflow, f);
            && t.s == s && t.o.Live? && t.o.d.run == d.run
            && if !LastAttempt(env, d) then
                 t.o.d.pc == Ready(f.(attempt := f.attempt + 1)) && t.o.d.buffer == d.buffer + [retry]
               else if comp.Some? then
                 && t.o.d.pc == Ready(Frame(comp.value, f.main, 1, true))
                 && t.o.d.buffer == d.buffer + [retry, Note(d.run, Compensation, comp.value, f.step)]
               else t.o.d.pc == Failing(f.main) && t.o.d.buffer == d.buffer + [retry]
  {
    var f := d.pc.f;
    var retry := Note(d.run, StepRetry, f.step, f.step);
    assert s.log + [] == s.log;
    assert d.buffer + [] + [retry] == d.buffer + [retry];
    var comp := Compensator(env, d.run.info.workflow, f);
    if comp.Some? {
      var note := Note(d.run, Compensation, comp.value, f.step);
      assert [retry] + [note] == [retry, note];
    }
  }

  // ---- where control goes, exactly ----------------------------------------------------------------

  ghost predicate GoesComp(p: Plan) {
    p.goal.Goto? && InStep(p.goal.pc) && p.goal.pc.f.comp
  }

  ghost predicate GoesFailing(p: Plan) {
    p.goal.Goto? && p.goal.pc.Failing?
  }

  /** Out of a main step: to compensation exactly when the attempts are exhausted
      and a compensating step exists, to failure exactly on a refusal or when they
      are exhausted and none exists. */
  ghost predicate MainLaw(env: Env, s: Shared, d: Driver, c: Choice, p: Plan)
    requires InMain(d.pc)
  {
    var comp := Compensator(env, d.run.info.workflow, d.pc.f);
    && (GoesComp(p) <==> Exhausts(env, d, c) && comp.Some?)
    && (GoesComp(p) ==> p.goal.pc == Ready(Frame(comp.value, d.pc.f.main, 1, true)))
    && (GoesFailing(p) <==> Refuses(env, s, d, c) || (Exhausts(env, d, c) && comp.None?))
    && (GoesFailing(p) ==> p.goal.pc == Failing(d.pc.f.main))
    && (p.goal.Stop? ==> p.goal.how == EndPaused || p.goal.how == EndEscaped)
  }

  /** Inside a compensation: on in the same frame, never to its start again, or to
      failure; it never stops the run. */
  ghost predicate CompLaw(d: Driver, p: Plan)
    requires InStep(d.pc)
  {
    p.goal.Goto? && (p.goal.pc == Failing(d.pc.f.main) || (InComp(p.goal.pc, d.pc.f) && (!p.goal.pc.Ready? || p == Idle(d))))
  }

  lemma ReadyLaw(env: Env, s: Shared, d: Driver, c: Choice)
    requires d.pc.Ready?
    ensures !d.pc.f.comp ==> MainLaw(env, s, d, c, PlanFor(env, s, d, c))
    ensures d.pc.f.comp ==> CompLaw(d, PlanFor(env, s, d, c)) && !(PlanFor(env, s, d, c).goal.pc.Ready?)
  {
    var node := StepOf(env, d.run.info.workflow, d.pc.f.step).node;
    if node.ToolNode? { ToolLaw(env, s, d, d.pc.f, node.tool, c); }
  }

  lemma ToolLaw(env: Env, s: Shared, d: Driver, f: Frame, name: string, c: Choice)
    requires d.pc == Ready(f) && StepOf(env, d.run.info.workflow, f.step).node == ToolNode(name)
    ensures var p := PlanTool(env, s, d, f, name);
            && (!f.comp ==> MainLaw(env, s, d, c, p))
            && (f.comp ==> CompLaw(d, p) && !p.goal.pc.Ready?)
  {
  }

  lemma AgentLaw(env: Env, s: Shared, d: Driver, c: Choice)
    requires d.pc.Think? || d.pc.Calls?
    ensures !d.pc.f.comp ==> MainLaw(env, s, d, c, PlanFor(env, s, d, c))
    ensures d.pc.f.comp ==> CompLaw(d, PlanFor(env, s, d, c))
  {
  }

  lemma CallingLaw(env: Env, s: Shared, d: Driver, c: Choice)
    requires d.pc.Calling?
    ensures !d.pc.f.comp ==> MainLaw(env, s, d, c, PlanFor(env, s, d, c))
    ensures d.pc.f.comp ==> CompLaw(d, PlanFor(env, s, d, c))
  {
  }

  lemma CallLaw(env: Env, s: Shared, d: Driver, c: Choice)
    requires d.pc.Executing? || d.pc.Recording?
    ensures !d.pc.f.comp ==> MainLaw(env, s, d, c, PlanFor(env, s, d, c))
    ensures d.pc.f.comp ==> CompLaw(d, PlanFor(env, s, d, c))
  {
  }

  lemma AskLaw(env: Env, s: Shared, d: Driver, c: Choice)
    requires d.pc.Asking? || d.pc.Requesting? || d.pc.Pausing?
    ensures !d.pc.f.comp ==> MainLaw(env, s, d, c, PlanFor(env, s, d, c))
    ensures d.pc.f.comp ==> CompLaw(d, PlanFor(env, s, d, c))
  {
  }

  lemma AnswerLaw(env: Env, s: Shared, d: Driver, c: Choice)
    requires d.pc.Answering?
    ensures !d.pc.f.comp ==> MainLaw(env, s, d, c, PlanFor(env, s, d, c))
    ensures d.pc.f.comp ==> CompLaw(d, PlanFor(env, s, d, c))
  {
  }

  /** Every step of a driver inside a step obeys the two laws. */
  lemma StepLaw(env: Env, s: Shared, d: Driver, c: Choice)
    requires InStep(d.pc)
    ensures !d.pc.f.comp ==> MainLaw(env, s, d, c, PlanFor(env, s, d, c))
    ensures d.pc.f.comp ==> CompLaw(d, PlanFor(env, s, d, c))
    ensures d.pc.f.comp && d.pc.Ready? ==> !PlanFor(env, s, d, c).goal.pc.Ready?
  {
    if d.pc.Ready? { ReadyLaw(env, s, d, c); }
    else if d.pc.Think? || d.pc.Calls? { AgentLaw(env, s, d, c); }
    else if d.pc.Calling? { CallingLaw(env, s, d, c); }
    else if d.pc.Executing? || d.pc.Recording? { CallLaw(env, s, d, c); }
    else if d.pc.Answering? { AnswerLaw(env, s, d, c); }
    else { AskLaw(env, s, d, c); }
  }

  // ---- a compensation that fails -------------------------------------------------------------------

  /** The same driver, running the step as a main step. */
  ghost function AsMain(d: Driver): Driver
    requires InStep(d.pc)
  {
    var m := d.pc.f.(comp := false);
    d.(pc := match d.pc
             case Ready(_) => Ready(m)
             case Think(_, i, task, scratch) => Think(m, i, task, scratch)
             case Calls(_, i, task, calls, done) => Calls(m, i, task, calls, done)
             case Calling(_, i, task, calls, done, invoked) => Calling(m, i, task, calls, done, invoked)
             case Asking(_, p) => Asking(m, p)
             case Requesting(_, p) => Requesting(m, p)
             case Pausing(_) => Pausing(m)
             case Answering(_, p, approval) => Answering(m, p, approval)
             case Executing(_, tool, args, invoked) => Executing(m, tool, args, invoked)
             case Recording(_, tool, result) => Recording(m, tool, result))
  }

  /** An exception leaves the step here: a failed call, a refusal, a pause, or one
      that would leave the engine if the step were a main step. */
  ghost predicate Throws(env: Env, s: Shared, d: Driver, c: Choice)
    requires InStep(d.pc)
  {
    CallFails(env, d, c) || Refuses(env, s, d, c) || d.pc.Pausing? || E.EscapePoint(env, s, AsMain(d), c)
  }

  ghost function Failure(d: Driver): Event
    requires InStep(d.pc)
  {
    Note(d.run, CompensationFailed, d.pc.f.step, d.pc.f.step)
  }

  /** What that does: its failure is announced last, and the run is about to fail. */
  ghost predicate Swallowed(d: Driver, p: Plan, thrown: bool)
    requires InStep(d.pc)
  {
    if thrown then p.late == [Failure(d)] && p.goal == Goto(Failing(d.pc.f.main))
    else p.late == [] && p.goal.Goto? && !p.op.Commit?
  }

  lemma ReadyLate(env: Env, s: Shared, d: Driver, c: Choice)
    requires d.pc.Ready? && d.pc.f.comp
    ensures Swallowed(d, PlanFor(env, s, d, c), Throws(env, s, d, c))
  {
    var st := StepOf(env, d.run.info.workflow, d.pc.f.step);
    if st.node.BranchNode? { BranchLate(env, s, d, st.node.arms, c); }
    else if st.node.ToolNode? { ToolLate(env, s, d, st.node.tool, c); }
  }

  lemma BranchLate(env: Env, s: Shared, d: Driver, arms: seq<Arm>, c: Choice)
    requires d.pc.Ready? && d.pc.f.comp && StepOf(env, d.run.info.workflow, d.pc.f.step).node == BranchNode(arms)
    ensures Swallowed(d, PlanBranch(env, d, d.pc.f, arms), Throws(env, s, d, c))
  {
    Edges.SelectIs(arms, StepOf(env, d.run.info.workflow, d.pc.f.step).next, d.run.context);
  }

  lemma ToolLate(env: Env, s: Shared, d: Driver, name: string, c: Choice)
    requires d.pc.Ready? && d.pc.f.comp && StepOf(env, d.run.info.workflow, d.pc.f.step).node == ToolNode(name)
    ensures Swallowed(d, PlanTool(env, s, d, d.pc.f, name), Throws(env, s, d, c))
  {
  }

  lemma AgentLate(env: Env, s: Shared, d: Driver, c: Choice)
    requires (d.pc.Think? || d.pc.Calls? || d.pc.Calling?) && d.pc.f.comp
    ensures Swallowed(d, PlanFor(env, s, d, c), Throws(env, s, d, c))
  {
  }

  lemma AskLate(env: Env, s: Shared, d: Driver, c: Choice)
    requires (d.pc.Asking? || d.pc.Requesting? || d.pc.Pausing?) && d.pc.f.comp
    ensures Swallowed(d, PlanFor(env, s, d, c), Throws(env, s, d, c))
  {
  }

  lemma CallLate(env: Env, s: Shared, d: Driver, c: Choice)
    requires (d.pc.Answering? || d.pc.Executing? || d.pc.Recording?) && d.pc.f.comp
    ensures Swallowed(d, PlanFor(env, s, d, c), Throws(env, s, d, c))
  {
  }

  /** Whatever leaves a compensating step as an exception is swallowed: its failure is
      announced last, and the run is about to fail. Nothing else announces one. */
  lemma FailedCompensation(env: Env, s: Shared, d: Driver, c: Choice)
    requires InStep(d.pc) && d.pc.f.comp
    ensures var t := DriverStep(env, s, d, c);
            && t.o.Live?
            && if Throws(env, s, d, c) then
                 t.o.d.pc == Failing(d.pc.f.main) && t.o.d.buffer != [] && t.o.d.buffer[|t.o.d.buffer| - 1] == Failure(d)
               else
                 t.o.d.buffer == d.buffer + PlanFor(env, s, d, c).events
  {
    PlanLate(env, s, d, c);
    PerformLate(s, d, PlanFor(env, s, d, c), Throws(env, s, d, c));
  }

  lemma PlanLate(env: Env, s: Shared, d: Driver, c: Choice)
    requires InStep(d.pc) && d.pc.f.comp
    ensures Swallowed(d, PlanFor(env, s, d, c), Throws(env, s, d, c))
  {
    if d.pc.Ready? { ReadyLate(env, s, d, c); }
    else if d.pc.Think? || d.pc.Calls? || d.pc.Calling? { AgentLate(env, s, d, c); }
    else if d.pc.Asking? || d.pc.Requesting? || d.pc.Pausing? { AskLate(env, s, d, c); }
    else { CallLate(env, s, d, c); }
  }

  lemma PerformLate(s: Shared, d: Driver, p: Plan, thrown: bool)
    requires InStep(d.pc) && Swallowed(d, p, thrown)
    ensures var t := Perform(s, d, p);
            && t.o.Live?
            && if thrown then
                 t.o.d.pc == Failing(d.pc.f.main) && t.o.d.buffer != [] && t.o.d.buffer[|t.o.d.buffer| - 1] == Failure(d)
               else t.o.d.buffer == d.buffer + p.events
  {
  }

  // ---- whole resumes ------------------------------------------------------------------------------

  /** The compensation that is due when this micro-step exhausts a main step. */
  ghost function DueNow(env: Env, d: Driver, m: Micro): seq<Frame> {
    if m.Choose? && InMain(d.pc) && Exhausts(env, d, m.c) then
      var comp := Compensator(env, d.run.info.workflow, d.pc.f);
      if comp.Some? then [Frame(comp.value, d.pc.f.main, 1, true)] else []
    else []
  }

  /** The compensating step that this micro-step runs. */
  ghost function RanNow(d: Driver, m: Micro): seq<Frame> {
    if m.Choose? && d.pc.Ready? && d.pc.f.comp then [d.pc.f] else []
  }

  /** The compensations that become due on a path, in order. */
  ghost function Due(env: Env, t: Turn, ms: seq<Micro>): seq<Frame>
    decreases ms
  {
    if ms == [] || t.o.Ended? then [] else DueNow(env, t.o.d, ms[0]) + Due(env, MicroStep(env, t, ms[0]), ms[1..])
  }

  /** The compensating steps that are run on it. */
  ghost function Ran(env: Env, t: Turn, ms: seq<Micro>): seq<Frame>
    decreases ms
  {
    if ms == [] || t.o.Ended? then [] else RanNow(t.o.d, ms[0]) + Ran(env, MicroStep(env, t, ms[0]), ms[1..])
  }

  lemma {:induction false} WhileFailing(env: Env, t: Turn, ms: seq<Micro>)
    requires t.o.Live? ==> t.o.d.pc.Failing?
    ensures Due(env, t, ms) == [] && Ran(env, t, ms) == []
    decreases ms
  {
    if ms != [] && t.o.Live? { WhileFailing(env, MicroStep(env, t, ms[0]), ms[1..]); }
  }

  lemma {:induction false} WhileCompensating(env: Env, t: Turn, ms: seq<Micro>, g: Frame)
    requires t.o.Live? && InComp(t.o.d.pc, g)
    ensures Due(env, t, ms) == []
    ensures Steps(env, t, ms).o.Ended? ==> Ran(env, t, ms) == if t.o.d.pc.Ready? then [g] else []
    decreases ms
  {
    if ms != [] {
      var d := t.o.d;
      var t' := MicroStep(env, t, ms[0]);
      if ms[0].Choose? { StepLaw(env, t.s, d, ms[0].c); }
      if t'.o.d.pc.Failing? { WhileFailing(env, t', ms[1..]); } else { WhileCompensating(env, t', ms[1..], g); }
    }
  }

  ghost predicate OnTheWay(t: Turn) {
    t.o.Live? ==> t.o.d.pc.Top? || t.o.d.pc.Advancing? || InMain(t.o.d.pc)
  }

  lemma WalkLaw(env: Env, s: Shared, d: Driver, c: Choice)
    requires d.pc.Top? || d.pc.Advancing?
    ensures var t := DriverStep(env, s, d, c); OnTheWay(t)
  {
  }

  lemma MainStep(env: Env, t: Turn, m: Micro)
    requires t.o.Live? && InMain(t.o.d.pc)
    ensures var t' := MicroStep(env, t, m);
            var due := DueNow(env, t.o.d, m);
            if due == [] then OnTheWay(t') || (t'.o.Live? && t'.o.d.pc.Failing?)
            else |due| == 1 && t'.o.Live? && t'.o.d.pc == Ready(due[0]) && due[0].comp
  {
    if m.Choose? { StepLaw(env, t.s, t.o.d, m.c); }
  }

  /** Every compensation that becomes due in a resume is run, exactly once and as
      a first attempt, before the resume ends; no other compensating step is run;
      and there is at most one. */
  lemma {:induction false} CompensationRuns(env: Env, t: Turn, ms: seq<Micro>)
    requires OnTheWay(t) && Steps(env, t, ms).o.Ended?
    ensures Ran(env, t, ms) == Due(env, t, ms) && |Due(env, t, ms)| <= 1
    decreases ms
  {
    if ms != [] && t.o.Live? {
      var t' := MicroStep(env, t, ms[0]);
      if InMain(t.o.d.pc) { MainStep(env, t, ms[0]); }
      else if ms[0].Choose? { WalkLaw(env, t.s, t.o.d, ms[0].c); }
      var due := DueNow(env, t.o.d, ms[0]);
      if due != [] {
        WhileCompensating(env, t', ms[1..], due[0]);
        assert due + [] == due && [] + due == due;
      } else if OnTheWay(t') {
        CompensationRuns(env, t', ms[1..]);
      } else {
        WhileFailing(env, t', ms[1..]);
      }
    }
  }

  // ---- a compensating call is really made ------------------------------------------------------------

  /** The compensating step calls a mutating tool that the gate allows. */
  ghost predicate Undoes(env: Env, s: Shared, run: Run, step: Id, tool: string, args: Dict) {
    && StepOf(env, run.info.workflow, step).node == ToolNode(tool)
    && tool in env.tools && env.tools[tool].sideEffect
    && StepOf(env, run.info.workflow, step).args(run.context) == Some(args)
    && Gate(env, SystemAgent(tool), env.tools[tool].(name := tool), args, run.context) == Allow
    && (var key := EffectKey(run.info.id, step, tool);
        key in s.tables.effects ==> s.tables.effects[key].tenant == run.info.tenant)
    && EO.LedgerAgrees(s.tables.effects, s.entries)
  }

  /** On the way through that call, or through with its effect on record. */
  ghost predicate Undoing(env: Env, t: Turn, g: Frame, tool: string, args: Dict) {
    && t.o.Live? && EO.LedgerAgrees(t.s.tables.effects, t.s.entries)
    && EO.HoldsEntry(env, t.o.d.run.info.workflow, t.o.d.run.info.id, t.o.d.pc, t.s.entries)
    && match t.o.d.pc
       case Ready(f) => f == g && Undoes(env, t.s, t.o.d.run, g.step, tool, args)
       case Executing(f, name, a, _) => f == g && name == tool && a == args && Undoes(env, t.s, t.o.d.run, g.step, tool, args)
       case Recording(f, name, _) => f == g && name == tool && Undoes(env, t.s, t.o.d.run, g.step, tool, args)
       case Failing(_) => EffectKey(t.o.d.run.info.id, g.step, tool) in t.s.tables.effects
       case _ => false
  }

  ghost predicate Undone(t: Turn, key: string) {
    key in t.s.tables.effects && Str(key) in t.s.entries && t.s.tables.effects[key].result == t.s.entries[Str(key)]
  }

  lemma ReadyUndoing(env: Env, t: Turn, c: Choice, g: Frame, tool: string, args: Dict)
    requires Undoing(env, t, g, tool, args) && g.comp && t.o.d.pc.Ready?
    ensures Undoing(env, DriverStep(env, t.s, t.o.d, c), g, tool, args)
  {
  }

  lemma ExecUndoing(env: Env, t: Turn, c: Choice, g: Frame, tool: string, args: Dict)
    requires Undoing(env, t, g, tool, args) && g.comp && t.o.d.pc.Executing? && !c.FailCall?
    ensures Undoing(env, DriverStep(env, t.s, t.o.d, c), g, tool, args)
  {
    EO.OpKeyKeyed(t.o.d.run.info.id, g.step, tool, args);
  }

  lemma RecordUndoing(env: Env, t: Turn, c: Choice, g: Frame, tool: string, args: Dict)
    requires Undoing(env, t, g, tool, args) && g.comp && t.o.d.pc.Recording?
    ensures Undoing(env, DriverStep(env, t.s, t.o.d, c), g, tool, args)
  {
  }

  lemma FailUndoing(env: Env, t: Turn, c: Choice, g: Frame, tool: string, args: Dict)
    requires Undoing(env, t, g, tool, args) && t.o.d.pc.Failing?
    ensures var t' := DriverStep(env, t.s, t.o.d, c);
            t'.o.Ended? && Undone(t', EffectKey(t.o.d.run.info.id, g.step, tool))
  {
  }

  lemma StepUndoing(env: Env, t: Turn, m: Micro, g: Frame, tool: string, args: Dict)
    requires Undoing(env, t, g, tool, args) && g.comp && m != Choose(FailCall)
    ensures var t' := MicroStep(env, t, m);
            && (t'.o.Live? ==> Undoing(env, t', g, tool, args) && t'.o.d.run.info == t.o.d.run.info)
            && (t'.o.Ended? ==> Undone(t', EffectKey(t.o.d.run.info.id, g.step, tool)))
  {
    if m.Choose? {
      if t.o.d.pc.Ready? { ReadyUndoing(env, t, m.c, g, tool, args); }
      else if t.o.d.pc.Executing? { ExecUndoing(env, t, m.c, g, tool, args); }
      else if t.o.d.pc.Recording? { RecordUndoing(env, t, m.c, g, tool, args); }
      else { FailUndoing(env, t, m.c, g, tool, args); }
    }
  }

  lemma {:induction false} StepsUndoing(env: Env, t: Turn, ms: seq<Micro>, g: Frame, tool: string, args: Dict)
    requires Undoing(env, t, g, tool, args) && g.comp
    requires (forall i :: 0 <= i < |ms| ==> ms[i] != Choose(FailCall)) && Steps(env, t, ms).o.Ended?
    ensures Undone(Steps(env, t, ms), EffectKey(t.o.d.run.info.id, g.step, tool))
    decreases ms
  {
    StepUndoing(env, t, ms[0], g, tool, args);
    if MicroStep(env, t, ms[0]).o.Live? { StepsUndoing(env, MicroStep(env, t, ms[0]), ms[1..], g, tool, args); }
  }

  /** The last attempt of a main step fails, and its compensation calls a mutating
      tool that the gate allows and whose connector does not fail: when the resume
      ends, the effect of that call is in the ledger and the entry of its key in
      the external system. */
  lemma CompensationPosts(env: Env, t: Turn, rest: seq<Micro>, tool: string, args: Dict)
    requires t.o.Live? && InMain(t.o.d.pc) && Exhausts(env, t.o.d, FailCall)
    requires var comp := Compensator(env, t.o.d.run.info.workflow, t.o.d.pc.f);
             comp.Some? && Undoes(env, t.s, t.o.d.run, comp.value, tool, args)
    requires forall i :: 0 <= i < |rest| ==> rest[i] != Choose(FailCall)
    requires Steps(env, t, [Choose(FailCall)] + rest).o.Ended?
    ensures var comp := Compensator(env, t.o.d.run.info.workflow, t.o.d.pc.f).value;
            Undone(Steps(env, t, [Choose(FailCall)] + rest), EffectKey(t.o.d.run.info.id, comp, tool))
  {
    var comp := Compensator(env, t.o.d.run.info.workflow, t.o.d.pc.f).value;
    var t1 := MicroStep(env, t, Choose(FailCall));
    FailedCall(env, t.s, t.o.d, FailCall);
    assert ([Choose(FailCall)] + rest)[1..] == rest;
    assert Steps(env, t, [Choose(FailCall)] + rest) == Steps(env, t1, rest);
    StepsUndoing(env, t1, rest, Frame(comp, t.o.d.pc.f.main, 1, true), tool, args);
  }
}
