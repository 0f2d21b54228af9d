/** The asynchronous approval protocol, with one driver per run at a time. */
module Approvals {
  import opened Core
  import opened StoreSpec
  import opened Machine
  import SD = SingleDriver

  // ---- at most one row per run and step -----------------------------------------------

  /** Engines of the HTTP service: approvals are resolved from outside. */
  ghost predicate Async(a: Action) {
    (a.Fire? ==> !a.sync) && (a.Start? ==> !a.sync)
  }

  ghost predicate AsyncRun(acts: seq<Action>) {
    forall i :: 0 <= i < |acts| ==> Async(acts[i])
  }

  ghost predicate HasRow(approvals: seq<Approval>, run: Id, step: Id) {
    exists i :: 0 <= i < |approvals| && approvals[i].run == run && approvals[i].step == step
  }

  ghost predicate OneRowEach(approvals: seq<Approval>) {
    forall i, j :: 0 <= i < j < |approvals| ==> approvals[i].run != approvals[j].run || approvals[i].step != approvals[j].step
  }

  ghost predicate RowsOwned(t: Tables) {
    forall i :: 0 <= i < |t.approvals| ==>
      t.approvals[i].run in t.runs && t.runs[t.approvals[i].run].info.tenant == t.approvals[i].tenant
  }

  /** The frame belongs to the cursor step, as itself or as its compensation. */
  ghost predicate InFrame(env: Env, run: Run, f: Frame) {
    && run.cursor == Some(f.main)
    && (if f.comp then StepOf(env, run.info.workflow, f.main).compensate == Some(f.step) else f.step == f.main)
  }

  ghost predicate AtCursor(env: Env, run: Run, pc: Pc) {
    match pc
    case Top(at) => run.cursor == Some(at)
    case Failing(main) => run.cursor == Some(main)
    case _ => InFrame(env, run, pc.f)
  }

  /** A driver that is about to insert a row found none; one that is about to
      pause has one. */
  ghost predicate RowMatches(approvals: seq<Approval>, run: Id, pc: Pc) {
    && (pc.Requesting? ==> !HasRow(approvals, run, pc.f.step))
    && (pc.Pausing? ==> HasRow(approvals, run, pc.f.step))
  }

  ghost predicate DriverInv(env: Env, t: Tables, d: Driver) {
    && !d.sync && !d.pc.Answering?
    && (d.run.status == WaitingApproval ==> d.pc.Pausing? || d.pc.Failing?)
    && AtCursor(env, d.run, d.pc)
    && RowMatches(t.approvals, d.run.info.id, d.pc)
  }

  /** A run that is committed as waiting has a row for its cursor step or for
      the step compensating it. */
  ghost predicate Asked(env: Env, approvals: seq<Approval>, run: Run) {
    run.status == WaitingApproval ==>
      && run.cursor.Some?
      && (|| HasRow(approvals, run.info.id, run.cursor.value)
          || (var c := StepOf(env, run.info.workflow, run.cursor.value).compensate;
              c.Some? && HasRow(approvals, run.info.id, c.value)))
  }

  ghost predicate Inv(env: Env, w: World) {
    && SD.Inv(env, w)
    && OneRowEach(w.s.tables.approvals) && RowsOwned(w.s.tables)
    && (forall r :: r in w.s.tables.runs ==> Asked(env, w.s.tables.approvals, w.s.tables.runs[r]))
    && (forall i :: i in w.drivers ==> DriverInv(env, w.s.tables, w.drivers[i]))
  }

  // ---- what a step plans -----------------------------------------------------------------

  ghost predicate OpOk(s: Shared, d: Driver, p: Plan) {
    && (p.op.AddApproval? ==>
          d.pc.Requesting? && p.op.step == d.pc.f.step && Owns(s.tables, d.run.info.tenant, d.run.info.id))
    && !p.op.SettleApproval?
    && (p.op.Commit? && p.status == WaitingApproval ==> d.pc.Pausing? && p.cursor == d.run.cursor)
  }

  /** Where control goes: a driver goes to insert a row only when it found none,
      and to pause only with a row. */
  ghost predicate GoalOk(env: Env, s: Shared, d: Driver, p: Plan) {
    p.goal.Goto? ==>
      var pc := p.goal.pc;
      && !pc.Answering?
      && (p.status == WaitingApproval ==> pc.Pausing? || pc.Failing?)
      && AtCursor(env, d.run.(cursor := p.cursor), pc)
      && (pc.Requesting? ==>
            p.op.Nothing? && Latest(s.tables.approvals, d.run.info.tenant, d.run.info.id, pc.f.step).None?)
      && (pc.Pausing? ==>
            || (p.op == AddApproval(pc.f.step))
            || (p.op.Nothing? && Latest(s.tables.approvals, d.run.info.tenant, d.run.info.id, pc.f.step).Some?))
  }

  /** A step that leaves approvals and the run row alone and stays in frame. */
  ghost predicate Plain(env: Env, d: Driver, p: Plan) {
    && (p.op.Nothing? || p.op.Record?)
    && p.status == d.run.status && p.cursor == d.run.cursor
    && (p.goal.Goto? ==>
          && !p.goal.pc.Answering? && !p.goal.pc.Requesting? && !p.goal.pc.Pausing?
          && AtCursor(env, d.run, p.goal.pc))
  }

  lemma PlainOk(env: Env, s: Shared, d: Driver, p: Plan)
    requires Plain(env, d, p) && d.run.status != WaitingApproval
    ensures OpOk(s, d, p) && GoalOk(env, s, d, p)
  {
    assert d.run.(cursor := p.cursor) == d.run;
  }

  lemma RaisePlain(env: Env, d: Driver, f: Frame, e: Fault, p: Plan)
    requires InFrame(env, d.run, f) && e != Paused && Plain(env, d, p.(goal := Stop(EndEscaped)))
    ensures Plain(env, d, Raise(env, d, f, e, p))
  {
  }

  lemma ToolPlain(env: Env, s: Shared, d: Driver, f: Frame, name: string)
    requires InFrame(env, d.run, f)
    ensures Plain(env, d, PlanTool(env, s, d, f, name))
  {
    RaisePlain(env, d, f, Broken, Idle(d));
    var args := StepOf(env, d.run.info.workflow, f.step).args(d.run.context);
    if name in env.tools && args.Some? {
      GatePlain(env, d, f, env.tools[name].(name := name), args.value);
    }
  }

  lemma GatePlain(env: Env, d: Driver, f: Frame, tool: Tool, args: Dict)
    requires InFrame(env, d.run, f)
    ensures Plain(env, d, PlanGate(env, d, f, tool, args))
  {
  }

  lemma ReadyPlain(env: Env, s: Shared, d: Driver, f: Frame)
    requires InFrame(env, d.run, f)
    ensures Plain(env, d, PlanReady(env, s, d, f))
  {
    RaisePlain(env, d, f, Broken, Idle(d));
    var node := StepOf(env, d.run.info.workflow, f.step).node;
    if node.ToolNode? { ToolPlain(env, s, d, f, node.tool); }
  }

  lemma AgentPlain(env: Env, s: Shared, d: Driver, c: Choice)
    requires (d.pc.Think? || d.pc.Calls? || d.pc.Calling?) && InFrame(env, d.run, d.pc.f)
    ensures Plain(env, d, PlanFor(env, s, d, c))
  {
    RaisePlain(env, d, d.pc.f, Broken, Idle(d));
    RaisePlain(env, d, d.pc.f, Connector, Idle(d));
  }

  lemma ExecPlain(env: Env, s: Shared, d: Driver, c: Choice)
    requires (d.pc.Executing? || d.pc.Recording?) && InFrame(env, d.run, d.pc.f)
    ensures Plain(env, d, PlanFor(env, s, d, c))
  {
    RaisePlain(env, d, d.pc.f, Broken, Idle(d));
    RaisePlain(env, d, d.pc.f, Connector, Idle(d));
  }

  lemma AskingOk(env: Env, s: Shared, d: Driver, c: Choice)
    requires (d.pc.Asking? || d.pc.Requesting?) && DriverInv(env, s.tables, d)
    ensures OpOk(s, d, PlanFor(env, s, d, c)) && GoalOk(env, s, d, PlanFor(env, s, d, c))
  {
  }

  lemma WalkOk(env: Env, s: Shared, d: Driver, c: Choice)
    requires (d.pc.Top? || d.pc.Advancing? || d.pc.Failing? || d.pc.Pausing?) && DriverInv(env, s.tables, d)
    ensures OpOk(s, d, PlanFor(env, s, d, c)) && GoalOk(env, s, d, PlanFor(env, s, d, c))
  {
  }

  lemma PlanOk(env: Env, s: Shared, d: Driver, c: Choice)
    requires DriverInv(env, s.tables, d)
    ensures OpOk(s, d, PlanFor(env, s, d, c)) && GoalOk(env, s, d, PlanFor(env, s, d, c))
  {
    if d.pc.Asking? || d.pc.Requesting? { AskingOk(env, s, d, c); }
    else if d.pc.Top? || d.pc.Advancing? || d.pc.Failing? || d.pc.Pausing? { WalkOk(env, s, d, c); }
    else {
      if d.pc.Ready? { ReadyPlain(env, s, d, d.pc.f); }
      else if d.pc.Executing? || d.pc.Recording? { ExecPlain(env, s, d, c); }
      else { AgentPlain(env, s, d, c); }
      PlainOk(env, s, d, PlanFor(env, s, d, c));
    }
  }

  // ---- what the step does ------------------------------------------------------------------

  ghost predicate RowsKept(a: seq<Approval>, a': seq<Approval>) {
    |a| <= |a'| && forall i :: 0 <= i < |a| ==>
      a'[i].run == a[i].run && a'[i].step == a[i].step && a'[i].tenant == a[i].tenant
  }

  lemma HasRowKept(a: seq<Approval>, a': seq<Approval>, run: Id, step: Id)
    requires RowsKept(a, a') && HasRow(a, run, step)
    ensures HasRow(a', run, step)
  {
    var i :| 0 <= i < |a| && a[i].run == run && a[i].step == step;
    assert a'[i].run == run;
  }

  /** Among a run's own rows, finding none means there is none. */
  lemma LatestMeansRow(t: Tables, run: Run, step: Id)
    requires RowsOwned(t) && run.info.id in t.runs && t.runs[run.info.id].info == run.info
    ensures Latest(t.approvals, run.info.tenant, run.info.id, step).Some? <==> HasRow(t.approvals, run.info.id, step)
  {
  }

  lemma StepApprovals(env: Env, s: Shared, d: Driver, p: Plan)
    requires OpOk(s, d, p) && DriverInv(env, s.tables, d)
    ensures var a, a' := s.tables.approvals, TablesAfter(s.tables, d, p).approvals;
            a' == a + if p.op.AddApproval? then [Approval(d.run.info.id, d.run.info.tenant, d.pc.f.step, ApprovalPending)] else []
  {
  }

  lemma StepAsked(env: Env, s: Shared, d: Driver, p: Plan, r: Id)
    requires SD.DriverInv(env, s.tables, d) && DriverInv(env, s.tables, d) && SD.Sound(env, s, d, p) && OpOk(s, d, p)
    requires forall r :: r in s.tables.runs ==> Asked(env, s.tables.approvals, s.tables.runs[r])
    ensures var t := TablesAfter(s.tables, d, p); r in t.runs ==> Asked(env, t.approvals, t.runs[r])
  {
    SD.StepTables(env, s, d, p);
    StepApprovals(env, s, d, p);
    var t := TablesAfter(s.tables, d, p);
    if r in s.tables.runs {
      var run := s.tables.runs[r];
      if run.status == WaitingApproval {
        if HasRow(s.tables.approvals, run.info.id, run.cursor.value) {
          HasRowKept(s.tables.approvals, t.approvals, run.info.id, run.cursor.value);
        } else {
          HasRowKept(s.tables.approvals, t.approvals, run.info.id, StepOf(env, run.info.workflow, run.cursor.value).compensate.value);
        }
      }
    }
  }

  lemma StepDriver(env: Env, s: Shared, d: Driver, p: Plan)
    requires SD.DriverInv(env, s.tables, d) && DriverInv(env, s.tables, d) && RowsOwned(s.tables)
    requires OpOk(s, d, p) && GoalOk(env, s, d, p) && p.goal.Goto?
    ensures DriverInv(env, TablesAfter(s.tables, d, p), Perform(s, d, p).o.d)
  {
    StepApprovals(env, s, d, p);
    if p.goal.pc.Requesting? || p.goal.pc.Pausing? {
      var a' := TablesAfter(s.tables, d, p).approvals;
      LatestMeansRow(s.tables, d.run, p.goal.pc.f.step);
      if p.op.AddApproval? {
        assert a'[|s.tables.approvals|].run == d.run.info.id;
      } else {
        assert s.tables.approvals + [] == s.tables.approvals;
      }
    }
  }

  lemma StepOther(env: Env, s: Shared, d: Driver, p: Plan, e: Driver)
    requires OpOk(s, d, p) && DriverInv(env, s.tables, d) && DriverInv(env, s.tables, e)
    requires e.run.info.id != d.run.info.id
    ensures DriverInv(env, TablesAfter(s.tables, d, p), e)
  {
    StepApprovals(env, s, d, p);
    var a, a' := s.tables.approvals, TablesAfter(s.tables, d, p).approvals;
    if e.pc.Pausing? { HasRowKept(a, a', e.run.info.id, e.pc.f.step); }
  }

  lemma StepRows(env: Env, s: Shared, d: Driver, p: Plan)
    requires SD.DriverInv(env, s.tables, d) && DriverInv(env, s.tables, d) && SD.Sound(env, s, d, p) && OpOk(s, d, p)
    requires OneRowEach(s.tables.approvals) && RowsOwned(s.tables)
    ensures OneRowEach(TablesAfter(s.tables, d, p).approvals) && RowsOwned(TablesAfter(s.tables, d, p))
  {
    SD.StepTables(env, s, d, p);
    StepApprovals(env, s, d, p);
  }

  // ---- every action, every serial asynchronous run ---------------------------------------------

  lemma DriveInv(env: Env, w: World, a: Action)
    requires Inv(env, w)
    ensures a.Drive? ==> Inv(env, Next(env, w, a))
  {
    SD.DriveInv(env, w, a);
    if a.Drive? && a.d in w.drivers {
      var d := w.drivers[a.d];
      var p := PlanFor(env, w.s, d, a.c);
      SD.PlanSound(env, w.s, d, a.c);
      PlanOk(env, w.s, d, a.c);
      StepRows(env, w.s, d, p);
      var t := TablesAfter(w.s.tables, d, p);
      forall r | r in t.runs ensures Asked(env, t.approvals, t.runs[r]) { StepAsked(env, w.s, d, p, r); }
      if p.goal.Goto? { StepDriver(env, w.s, d, p); }
      forall i | i in w.drivers && i != a.d ensures DriverInv(env, t, w.drivers[i]) {
        StepOther(env, w.s, d, p, w.drivers[i]);
      }
    }
  }

  lemma ResolveInv(env: Env, w: World, a: Action)
    requires Inv(env, w)
    ensures a.Resolve? ==> Inv(env, Next(env, w, a))
  {
    SD.OtherInv(env, w, a);
    if a.Resolve? {
      var t := ResolveApproval(w.s.tables, a.tenant, a.approval, a.approved);
      if t.Some? {
        SameRows(env, w.s.tables, t.value);
      }
    }
  }

  /** Statuses of approvals do not matter here. */
  lemma SameRows(env: Env, t: Tables, t': Tables)
    requires t'.runs == t.runs && RowsKept(t.approvals, t'.approvals) && RowsKept(t'.approvals, t.approvals)
    ensures OneRowEach(t.approvals) ==> OneRowEach(t'.approvals)
    ensures RowsOwned(t) ==> RowsOwned(t')
    ensures forall run :: Asked(env, t.approvals, run) ==> Asked(env, t'.approvals, run)
    ensures forall d :: DriverInv(env, t, d) ==> DriverInv(env, t', d)
  {
    forall run, step ensures HasRow(t.approvals, run, step) <==> HasRow(t'.approvals, run, step) {
      if HasRow(t.approvals, run, step) { HasRowKept(t.approvals, t'.approvals, run, step); }
      if HasRow(t'.approvals, run, step) { HasRowKept(t'.approvals, t.approvals, run, step); }
    }
  }

  /** A fresh driver stands at the cursor and has asked nothing yet. */
  lemma Fresh(env: Env, t: Tables, id: nat, run: Run, buffer: seq<Event>)
    requires run.cursor.Some?
    ensures DriverInv(env, t, Driving(env, id, false, run, buffer))
  {
  }

  lemma CursorSet(env: Env, t: Tables, id: Id)
    requires SD.Rows(env, t) && id in t.runs && !Terminal(t.runs[id].status)
    ensures t.runs[id].cursor.Some?
  {
    assert SD.RowInv(env, t.runs[id], EventsOf(t.events, id));
  }

  lemma Launched(env: Env, w: World, run: Run)
    requires Inv(env, w) && DriverInv(env, w.s.tables, Driving(env, w.nextId, false, run, []))
    ensures SD.Inv(env, Launch(env, w, false, run, [])) ==> Inv(env, Launch(env, w, false, run, []))
  {
  }

  lemma StartInv(env: Env, w: World, a: Action)
    requires Inv(env, w) && SD.Serial(w, a) && Async(a)
    ensures a.Start? ==> Inv(env, Next(env, w, a))
  {
    SD.StartInv(env, w, a);
    if a.Start? && a.id in w.s.tables.runs && !Terminal(w.s.tables.runs[a.id].status) {
      CursorSet(env, w.s.tables, a.id);
      Fresh(env, w.s.tables, w.nextId, w.s.tables.runs[a.id], []);
      Launched(env, w, w.s.tables.runs[a.id]);
    }
  }

  lemma FireInv(env: Env, w: World, a: Action)
    requires Inv(env, w) && Async(a)
    ensures a.Fire? ==> Inv(env, Next(env, w, a))
  {
    SD.FireInv(env, w, a);
    if a.Fire? && a.wf in env.workflows && StoreSpec.Fresh(w.s.tables, NewRun(env, a)) {
      var run := NewRun(env, a);
      var t := CreateRun(w.s.tables, run);
      Fresh(env, t, w.nextId, run, [Event(a.id, a.tenant, TriggerFired, None, 0.0, Obj(a.trigger))]);
      FiredRows(env, w.s.tables, run);
    }
  }

  lemma FiredRows(env: Env, t: Tables, run: Run)
    requires StoreSpec.Fresh(t, run) && run.status == Pending && RowsOwned(t)
    requires forall r :: r in t.runs ==> Asked(env, t.approvals, t.runs[r])
    ensures var t' := CreateRun(t, run);
            && RowsOwned(t') && (forall r :: r in t'.runs ==> Asked(env, t'.approvals, t'.runs[r]))
            && (forall d :: DriverInv(env, t, d) ==> DriverInv(env, t', d))
  {
  }

  lemma CancelInv(env: Env, w: World, a: Action)
    requires Inv(env, w) && SD.Serial(w, a)
    ensures a.Cancel? ==> Inv(env, Next(env, w, a))
  {
    SD.CancelInv(env, w, a);
    if a.Cancel? && SD.Cancelable(w.s.tables, a.tenant, a.id) {
      CanceledRows(env, w.s.tables, CancelRun(w.s.tables, a.tenant, a.id).value.0, a.id);
    }
  }

  lemma CanceledRows(env: Env, t: Tables, t': Tables, id: Id)
    requires id in t.runs && t'.runs == t.runs[id := t.runs[id].(status := Canceled)] && t'.approvals == t.approvals
    ensures RowsOwned(t) ==> RowsOwned(t')
    ensures (forall r :: r in t.runs ==> Asked(env, t.approvals, t.runs[r])) ==>
              forall r :: r in t'.runs ==> Asked(env, t'.approvals, t'.runs[r])
    ensures forall d :: DriverInv(env, t, d) ==> DriverInv(env, t', d)
  {
  }

  lemma PurgeInv(env: Env, w: World, a: Action)
    requires Inv(env, w)
    ensures a.PurgePayloads? ==> Inv(env, Next(env, w, a))
  {
    SD.PurgeInv(env, w, a);
    if a.PurgePayloads? { SameRows(env, w.s.tables, Purge(w.s.tables, a.tenant, a.stale)); }
  }

  lemma OtherInv(env: Env, w: World, a: Action)
    requires Inv(env, w)
    ensures a.Crash? || a.Arrive? ==> Inv(env, Next(env, w, a))
  {
    SD.OtherInv(env, w, a);
  }

  lemma {:induction false} ExecInv(env: Env, w: World, acts: seq<Action>)
    requires Inv(env, w) && SD.SerialRun(env, w, acts) && AsyncRun(acts)
    ensures Inv(env, Exec(env, w, acts))
    decreases acts
  {
    if acts != [] {
      DriveInv(env, w, acts[0]);
      ResolveInv(env, w, acts[0]);
      StartInv(env, w, acts[0]);
      FireInv(env, w, acts[0]);
      CancelInv(env, w, acts[0]);
      PurgeInv(env, w, acts[0]);
      OtherInv(env, w, acts[0]);
      ExecInv(env, Next(env, w, acts[0]), acts[1..]);
    }
  }

  /** Whatever crashes, resumes and decisions happen, a run and step never get a
      second approval row, and a run committed as waiting has asked for one. */
  lemma OneRequest(env: Env, acts: seq<Action>)
    requires SD.SerialRun(env, INIT, acts) && AsyncRun(acts)
    ensures var t := Exec(env, INIT, acts).s.tables;
            && OneRowEach(t.approvals)
            && (forall r :: r in t.runs ==> Asked(env, t.approvals, t.runs[r]))
  {
    ExecInv(env, INIT, acts);
  }
}
