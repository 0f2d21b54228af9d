/** The committed step count stays within `maxSteps + 1` under every interleaving of
    any number of drivers: the check before a step entry is `>`. It bounds the
    step entries in the log only with one driver at a time. */
module StepLimit {
  import opened Core
  import opened StoreSpec
  import opened Machine

  ghost predicate Within(env: Env, run: Run) {
    run.steps <= WorkflowOf(env, run.info.workflow).maxSteps + 1
  }

  ghost predicate Inv(env: Env, w: World) {
    && (forall r :: r in w.s.tables.runs ==> w.s.tables.runs[r].info.id == r && Within(env, w.s.tables.runs[r]))
    && (forall i :: i in w.drivers ==>
          && Within(env, w.drivers[i].run)
          && w.drivers[i].run.info.id in w.s.tables.runs
          && w.s.tables.runs[w.drivers[i].run.info.id].info == w.drivers[i].run.info)
  }

  /** Only the top of the loop takes a step, after the budget check. */
  ghost predicate Checked(env: Env, d: Driver, p: Plan) {
    p.steps == 0 || (p.steps == 1 && !OverBudget(WorkflowOf(env, d.run.info.workflow), d.run))
  }

  lemma ReadyChecked(env: Env, s: Shared, d: Driver, f: Frame)
    ensures Checked(env, d, PlanReady(env, s, d, f))
  {
  }

  lemma AgentChecked(env: Env, s: Shared, d: Driver, c: Choice)
    requires d.pc.Think? || d.pc.Calls? || d.pc.Calling?
    ensures Checked(env, d, PlanFor(env, s, d, c))
  {
  }

  lemma ApprovalChecked(env: Env, s: Shared, d: Driver, c: Choice)
    requires d.pc.Asking? || d.pc.Answering? || d.pc.Requesting? || d.pc.Pausing?
    ensures Checked(env, d, PlanFor(env, s, d, c))
  {
  }

  lemma PlanChecked(env: Env, s: Shared, d: Driver, c: Choice)
    ensures Checked(env, d, PlanFor(env, s, d, c))
  {
    if d.pc.Ready? { ReadyChecked(env, s, d, d.pc.f); }
    else if d.pc.Think? || d.pc.Calls? || d.pc.Calling? { AgentChecked(env, s, d, c); }
    else if d.pc.Asking? || d.pc.Answering? || d.pc.Requesting? || d.pc.Pausing? { ApprovalChecked(env, s, d, c); }
  }

  lemma StepRuns(env: Env, s: Shared, d: Driver, p: Plan)
    requires Checked(env, d, p) && Within(env, d.run)
    requires forall r :: r in s.tables.runs ==> s.tables.runs[r].info.id == r && Within(env, s.tables.runs[r])
    requires d.run.info.id in s.tables.runs && s.tables.runs[d.run.info.id].info == d.run.info
    ensures var runs := TablesAfter(s.tables, d, p).runs;
            && (forall r :: r in s.tables.runs ==> r in runs && runs[r].info == s.tables.runs[r].info)
            && (forall r :: r in runs ==> runs[r].info.id == r && Within(env, runs[r]))
            && Within(env, RunAfter(d, p))
  {
    CommitRuns(s.tables, d, p);
  }

  /** A step changes the row of its own run only, to the driver's copy. */
  lemma CommitRuns(t: Tables, d: Driver, p: Plan)
    requires d.run.info.id in t.runs && t.runs[d.run.info.id].info == d.run.info
    ensures var runs := TablesAfter(t, d, p).runs; runs == t.runs || runs == t.runs[d.run.info.id := RunAfter(d, p)]
  {
  }

  lemma DriveInv(env: Env, w: World, a: Action)
    requires Inv(env, w) && a.Drive?
    ensures Inv(env, Next(env, w, a))
  {
    if a.d in w.drivers {
      var d := w.drivers[a.d];
      PlanChecked(env, w.s, d, a.c);
      StepRuns(env, w.s, d, PlanFor(env, w.s, d, a.c));
    }
  }

  lemma NextInv(env: Env, w: World, a: Action)
    requires Inv(env, w)
    ensures Inv(env, Next(env, w, a))
  {
    if a.Drive? { DriveInv(env, w, a); }
    else if a.Cancel? { CancelInv(env, w, a); }
    else if a.Resolve? { ResolveInv(env, w, a); }
  }

  lemma CancelInv(env: Env, w: World, a: Action)
    requires Inv(env, w) && a.Cancel?
    ensures Inv(env, Next(env, w, a))
  {
  }

  lemma ResolveInv(env: Env, w: World, a: Action)
    requires Inv(env, w) && a.Resolve?
    ensures Inv(env, Next(env, w, a))
  {
  }

  lemma {:induction false} ExecInv(env: Env, w: World, acts: seq<Action>)
    requires Inv(env, w)
    ensures Inv(env, Exec(env, w, acts))
    decreases acts
  {
    if acts != [] {
      NextInv(env, w, acts[0]);
      ExecInv(env, Next(env, w, acts[0]), acts[1..]);
    }
  }

  /** However many drivers race, crash and resume, the committed step count of a run
      never exceeds `maxSteps + 1`. */
  lemma StepCeiling(env: Env, acts: seq<Action>, r: Id)
    requires r in Exec(env, INIT, acts).s.tables.runs
    ensures var run := Exec(env, INIT, acts).s.tables.runs[r];
            run.steps <= WorkflowOf(env, run.info.workflow).maxSteps + 1
  {
    ExecInv(env, INIT, acts);
  }
}
