/** Convergence: uncrashed resumes of a run reach a terminal status after at most
    `maxSteps + 2` of them, whatever the step graph. */
module Convergence {
  import opened Core
  import opened StoreSpec
  import opened Machine
  import SL = StepLimit
  import SD = SingleDriver
  import X = Escapes
  import opened Books

  // ---- well-formed workflows do not break outside their steps ---------------------------------

  ghost predicate Known(wf: Workflow, next: Option<Id>) {
    next.Some? ==> next.value in wf.steps
  }

  /** Every edge leads to a step, and every step may be attempted. */
  ghost predicate Closed(wf: Workflow) {
    && wf.start in wf.steps
    && forall s :: s in wf.steps ==>
         && wf.steps[s].maxAttempts >= 1 && Known(wf, wf.steps[s].next)
         && (wf.steps[s].node.BranchNode? ==>
               forall k :: 0 <= k < |wf.steps[s].node.arms| ==> wf.steps[s].node.arms[k].goto in wf.steps)
  }

  ghost predicate InGraph(wf: Workflow, pc: Pc) {
    match pc
    case Top(at) => at in wf.steps
    case Advancing(_, next) => Known(wf, next)
    case Failing(_) => true
    case _ => pc.f.step in wf.steps
  }

  ghost predicate Walking(pc: Pc) { pc.Top? || pc.Advancing? || pc.Failing? }

  /** The driver of run `r`: its row exists and its events are its tenant's, and
      it has entered a step since the run had taken `n0`. */
  ghost predicate Going(env: Env, s: Shared, d: Driver, r: Id, n0: nat) {
    && d.run.info.id == r && r in s.tables.runs && s.tables.runs[r].info == d.run.info
    && AllOf(d.buffer, d.run.info.tenant)
    && d.run.steps >= n0 + (if d.pc.Top? then 0 else 1)
    && !Terminal(d.run.status) && SL.Within(env, d.run)
    && Placed(env, d)
  }

  /** Program point and cursor are in the graph. */
  ghost predicate Placed(env: Env, d: Driver) {
    var wf := WorkflowOf(env, d.run.info.workflow);
    Closed(wf) && InGraph(wf, d.pc) && Known(wf, d.run.cursor)
  }

  ghost predicate Halted(env: Env, t: Tables, how: End, info: RunInfo, n0: nat) {
    && info.id in t.runs && t.runs[info.id].info == info
    && var run := t.runs[info.id];
    && (how == EndFailed || how == EndSucceeded ==> Terminal(run.status))
    && (how == EndPaused ==> run.steps > n0 && SL.Within(env, run) && Known(WorkflowOf(env, info.workflow), run.cursor))
  }

  ghost predicate Good(env: Env, t: Turn, info: RunInfo, n0: nat) {
    match t.o
    case Live(d) => d.run.info == info && Going(env, t.s, d, info.id, n0)
    case Ended(how) => Halted(env, t.s.tables, how, info, n0)
  }

  // ---- one step ------------------------------------------------------------------------------------

  /** What a plan of a driver that has entered its step may be. */
  ghost predicate Proper(d: Driver, p: Plan) {
    && (p.goal.Goto? && p.goal.pc.Top? ==> d.pc.Advancing?)
    && (p.goal.Stop? && p.goal.how != EndEscaped ==> p.op.Commit?)
    && (p.goal == Stop(EndPaused) ==> !d.pc.Top?)
    && (p.goal == Stop(EndFailed) ==> p.status == Failed)
    && (p.goal == Stop(EndSucceeded) ==> p.status == Succeeded)
    && (d.pc.Top? && p.goal.Goto? ==> p.steps == 1)
    && (p.cursor == d.run.cursor || p.cursor.None? || (d.pc.Advancing? && d.pc.next == p.cursor))
  }

  lemma ReadyProper(env: Env, s: Shared, d: Driver, f: Frame)
    requires d.pc.Ready?
    ensures Proper(d, PlanReady(env, s, d, f))
  {
  }

  lemma AgentProper(env: Env, s: Shared, d: Driver, c: Choice)
    requires d.pc.Think? || d.pc.Calls? || d.pc.Calling?
    ensures Proper(d, PlanFor(env, s, d, c))
  {
  }

  lemma AskProper(env: Env, s: Shared, d: Driver, c: Choice)
    requires d.pc.Asking? || d.pc.Requesting? || d.pc.Pausing? || d.pc.Answering?
    ensures Proper(d, PlanFor(env, s, d, c))
  {
  }

  lemma PlanProper(env: Env, s: Shared, d: Driver, c: Choice)
    ensures Proper(d, PlanFor(env, s, d, c))
  {
    if d.pc.Ready? { ReadyProper(env, s, d, d.pc.f); }
    else if d.pc.Think? || d.pc.Calls? || d.pc.Calling? { AgentProper(env, s, d, c); }
    else if d.pc.Asking? || d.pc.Requesting? || d.pc.Pausing? || d.pc.Answering? { AskProper(env, s, d, c); }
  }

  // ---- escapes -----------------------------------------------------------------------------------------

  /** The step in progress meets a guard on which it raises something other than
      a connector error, a refusal or a pause. */
  ghost predicate Breaks(env: Env, t: Turn, m: Micro) {
    t.o.Live? && m.Choose? && !Walking(t.o.d.pc) && X.EscapePoint(env, t.s, t.o.d, m.c)
  }

  ghost predicate NeverBreaks(env: Env, t: Turn, ms: seq<Micro>)
    decreases ms
  {
    ms == [] || t.o.Ended? || (!Breaks(env, t, ms[0]) && NeverBreaks(env, MicroStep(env, t, ms[0]), ms[1..]))
  }

  ghost predicate GoalInGraph(wf: Workflow, p: Plan) {
    p.goal.Goto? ==> InGraph(wf, p.goal.pc)
  }

  lemma RaiseInGraph(env: Env, d: Driver, f: Frame, e: Fault, p: Plan)
    requires var wf := WorkflowOf(env, d.run.info.workflow); f.step in wf.steps
    ensures GoalInGraph(WorkflowOf(env, d.run.info.workflow), Raise(env, d, f, e, p))
  {
  }

  lemma {:induction false} SelectKnown(wf: Workflow, arms: seq<Arm>, otherwise: Option<Id>, ctx: Dict)
    requires Known(wf, otherwise) && forall k :: 0 <= k < |arms| ==> arms[k].goto in wf.steps
    ensures Known(wf, Select(arms, otherwise, ctx).next)
    decreases arms
  {
    if arms != [] { SelectKnown(wf, arms[1..], otherwise, ctx); }
  }

  lemma ReadyInGraph(env: Env, s: Shared, d: Driver, f: Frame)
    requires var wf := WorkflowOf(env, d.run.info.workflow); Closed(wf) && f.step in wf.steps
    ensures GoalInGraph(WorkflowOf(env, d.run.info.workflow), PlanReady(env, s, d, f))
  {
    var wf := WorkflowOf(env, d.run.info.workflow);
    var step := wf.steps[f.step];
    RaiseInGraph(env, d, f, Broken, Idle(d));
    if step.node.BranchNode? { SelectKnown(wf, step.node.arms, step.next, d.run.context); }
  }

  lemma AgentInGraph(env: Env, s: Shared, d: Driver, c: Choice)
    requires d.pc.Think? || d.pc.Calls? || d.pc.Calling?
    requires var wf := WorkflowOf(env, d.run.info.workflow); Closed(wf) && d.pc.f.step in wf.steps
    ensures GoalInGraph(WorkflowOf(env, d.run.info.workflow), PlanFor(env, s, d, c))
  {
    RaiseInGraph(env, d, d.pc.f, Broken, Idle(d));
    RaiseInGraph(env, d, d.pc.f, Connector, Idle(d));
  }

  lemma RestInGraph(env: Env, s: Shared, d: Driver, c: Choice)
    requires d.pc.Asking? || d.pc.Requesting? || d.pc.Pausing? || d.pc.Answering? || d.pc.Executing? || d.pc.Recording?
    requires var wf := WorkflowOf(env, d.run.info.workflow); Closed(wf) && d.pc.f.step in wf.steps
    ensures GoalInGraph(WorkflowOf(env, d.run.info.workflow), PlanFor(env, s, d, c))
  {
    RaiseInGraph(env, d, d.pc.f, Broken, Idle(d));
    RaiseInGraph(env, d, d.pc.f, Connector, Idle(d));
    if d.pc.Answering? { AnswerInGraph(env, s, d, c); }
  }

  lemma AnswerInGraph(env: Env, s: Shared, d: Driver, c: Choice)
    requires d.pc.Answering?
    requires var wf := WorkflowOf(env, d.run.info.workflow); Closed(wf) && d.pc.f.step in wf.steps
    ensures GoalInGraph(WorkflowOf(env, d.run.info.workflow), PlanFor(env, s, d, c))
  {
  }

  lemma PlanInGraph(env: Env, s: Shared, d: Driver, c: Choice)
    requires var wf := WorkflowOf(env, d.run.info.workflow); Closed(wf) && InGraph(wf, d.pc)
    ensures GoalInGraph(WorkflowOf(env, d.run.info.workflow), PlanFor(env, s, d, c))
  {
    if d.pc.Ready? { ReadyInGraph(env, s, d, d.pc.f); }
    else if d.pc.Think? || d.pc.Calls? || d.pc.Calling? { AgentInGraph(env, s, d, c); }
    else if !Walking(d.pc) { RestInGraph(env, s, d, c); }
  }

  lemma PerformGood(env: Env, s: Shared, d: Driver, p: Plan, r: Id, n0: nat)
    requires Going(env, s, d, r, n0) && Proper(d, p) && SL.Checked(env, d, p) && SD.Sound(env, s, d, p)
    requires GoalInGraph(WorkflowOf(env, d.run.info.workflow), p)
    ensures Good(env, Perform(s, d, p), d.run.info, n0)
  {
    assert AllOf(d.buffer + p.events, d.run.info.tenant);
  }

  lemma StepGood(env: Env, s: Shared, d: Driver, m: Micro, r: Id, n0: nat)
    requires Going(env, s, d, r, n0)
    ensures Good(env, MicroStep(env, Turn(s, Live(d)), m), d.run.info, n0)
  {
    if m.Choose? {
      PlanProper(env, s, d, m.c);
      SL.PlanChecked(env, s, d, m.c);
      SD.PlanSound(env, s, d, m.c);
      PlanInGraph(env, s, d, m.c);
      PerformGood(env, s, d, PlanFor(env, s, d, m.c), r, n0);
    }
  }

  lemma {:induction false} StepsGood(env: Env, t: Turn, ms: seq<Micro>, info: RunInfo, n0: nat)
    requires Good(env, t, info, n0)
    ensures Good(env, Steps(env, t, ms), info, n0)
    decreases ms
  {
    if ms != [] && t.o.Live? {
      StepGood(env, t.s, t.o.d, ms[0], info.id, n0);
      StepsGood(env, MicroStep(env, t, ms[0]), ms[1..], info, n0);
    }
  }

  /** Outside a step, a driver of a stored run in a closed graph never escapes. */
  lemma WalkHolds(env: Env, s: Shared, d: Driver, c: Choice, r: Id, n0: nat)
    requires Going(env, s, d, r, n0) && Walking(d.pc)
    ensures PlanFor(env, s, d, c).goal != Stop(EndEscaped)
  {
  }

  /** In a closed graph a resume escapes exactly if one of its steps breaks. */
  lemma {:induction false} NoEscape(env: Env, t: Turn, ms: seq<Micro>, info: RunInfo, n0: nat)
    requires Good(env, t, info, n0) && t.o != Ended(EndEscaped)
    ensures NeverBreaks(env, t, ms) <==> Steps(env, t, ms).o != Ended(EndEscaped)
    decreases ms
  {
    if ms != [] && t.o.Live? {
      var t' := MicroStep(env, t, ms[0]);
      StepGood(env, t.s, t.o.d, ms[0], info.id, n0);
      if ms[0].Choose? {
        X.EscapesExactly(env, t.s, t.o.d, ms[0].c);
        if Walking(t.o.d.pc) { WalkHolds(env, t.s, t.o.d, ms[0].c, info.id, n0); }
      }
      if t'.o != Ended(EndEscaped) { NoEscape(env, t', ms[1..], info, n0); }
    }
  }

  // ---- resumes -------------------------------------------------------------------------------------------

  /** One uncrashed resume: what it found, and what happened until it ended. */
  datatype Visit = Visit(s: Shared, id: nat, sync: bool, ms: seq<Micro>)

  ghost function Begin(env: Env, r: Id, v: Visit): Turn
    requires r in v.s.tables.runs
  {
    Turn(v.s, Live(Driving(env, v.id, v.sync, v.s.tables.runs[r], [])))
  }

  ghost function Finish(env: Env, r: Id, v: Visit): Turn
    requires r in v.s.tables.runs
  {
    Steps(env, Begin(env, r, v), v.ms)
  }

  /** A non-terminal run, resumed until the resume ends, with steps that fail
      only by connector errors, refusals and pauses. */
  ghost predicate Completes(env: Env, r: Id, v: Visit) {
    && r in v.s.tables.runs && v.s.tables.runs[r].info.id == r && !Terminal(v.s.tables.runs[r].status)
    && Finish(env, r, v).o.Ended? && NeverBreaks(env, Begin(env, r, v), v.ms)
  }

  ghost predicate Sane(env: Env, run: Run) {
    var wf := WorkflowOf(env, run.info.workflow);
    Closed(wf) && Known(wf, run.cursor) && SL.Within(env, run)
  }

  lemma OneVisit(env: Env, r: Id, v: Visit)
    requires Completes(env, r, v) && Sane(env, v.s.tables.runs[r])
    ensures var run, t := v.s.tables.runs[r], Finish(env, r, v).s.tables;
            && r in t.runs && t.runs[r].info == run.info
            && (Terminal(t.runs[r].status) || (t.runs[r].steps > run.steps && Sane(env, t.runs[r])))
    ensures Finish(env, r, v).o != Ended(EndEscaped)
  {
    var run := v.s.tables.runs[r];
    var t := Begin(env, r, v);
    assert Good(env, t, run.info, run.steps);
    StepsGood(env, t, v.ms, run.info, run.steps);
    NoEscape(env, t, v.ms, run.info, run.steps);
  }

  /** Resumes one after the other; in between anything may happen to the store,
      but the run's row is left as the last resume committed it. */
  ghost predicate Chain(env: Env, r: Id, vs: seq<Visit>) {
    && (forall i :: 0 <= i < |vs| ==> Completes(env, r, vs[i]))
    && (forall i :: 0 <= i < |vs| - 1 ==> Leads(env, r, vs[i], vs[i + 1]))
  }

  ghost predicate Leads(env: Env, r: Id, v: Visit, v': Visit)
    requires Completes(env, r, v) && Completes(env, r, v')
  {
    var t := Finish(env, r, v).s.tables; r in t.runs && v'.s.tables.runs[r] == t.runs[r]
  }

  lemma {:induction false} StepsMount(env: Env, r: Id, vs: seq<Visit>, i: nat)
    requires Chain(env, r, vs) && i < |vs| && Sane(env, vs[0].s.tables.runs[r])
    ensures vs[i].s.tables.runs[r].steps >= i && Sane(env, vs[i].s.tables.runs[r])
    ensures vs[i].s.tables.runs[r].info == vs[0].s.tables.runs[r].info
  {
    if i > 0 {
      StepsMount(env, r, vs, i - 1);
      OneVisit(env, r, vs[i - 1]);
      assert Leads(env, r, vs[i - 1], vs[i - 1 + 1]);
    }
  }

  /** Of `maxSteps + 2` uncrashed resumes in a row, the last leaves the run in a
      terminal status, if none before it did. */
  lemma Converges(env: Env, r: Id, vs: seq<Visit>)
    requires Chain(env, r, vs) && vs != [] && Sane(env, vs[0].s.tables.runs[r])
    requires |vs| >= WorkflowOf(env, vs[0].s.tables.runs[r].info.workflow).maxSteps + 2
    ensures var t := Finish(env, r, vs[|vs| - 1]).s.tables; r in t.runs && Terminal(t.runs[r].status)
  {
    var n := |vs| - 1;
    StepsMount(env, r, vs, n);
    OneVisit(env, r, vs[n]);
  }
}
