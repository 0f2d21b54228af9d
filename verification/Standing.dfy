/** While an approval is pending or stands rejected, the run stands still:
    resuming it executes nothing and changes neither cursor, context nor cost;
    a standing rejection ends in FAILED. */
module Standing {
  import opened Core
  import opened StoreSpec
  import opened Machine
  import SD = SingleDriver
  import A = Approvals
  import opened Text

  // ---- a run held by an approval ------------------------------------------------------

  /** The step cannot be passed without approval: an approval node, or a tool
      node whose call the gate refers to a human and whose effect is not
      already recorded. */
  ghost predicate NeedsApproval(env: Env, t: Tables, run: Run, c: Id) {
    var step := StepOf(env, run.info.workflow, c);
    || step.node.ApprovalNode?
    || (&& step.node.ToolNode? && step.node.tool in env.tools && step.args(run.context).Some?
        && (var tool := env.tools[step.node.tool].(name := step.node.tool);
            && Gate(env, SystemAgent(tool.name), tool, step.args(run.context).value, run.context) == RequireApproval
            && (tool.sideEffect ==>
                  GetEffect(t, run.info.tenant, EffectKey(run.info.id, c, tool.name)) in {Missing, Found(Null)})))
  }

  ghost predicate Blocked(env: Env, t: Tables, run: Run, i: nat) {
    && run.cursor.Some?
    && Latest(t.approvals, run.info.tenant, run.info.id, run.cursor.value) == Some(i)
    && t.approvals[i].status != Approved
    && NeedsApproval(env, t, run, run.cursor.value)
  }

  ghost predicate PcHeld(c: Id, pc: Pc) {
    || pc == Top(c) || pc == Failing(c)
    || ((pc.Ready? || pc.Asking? || pc.Pausing?) && pc.f == Frame(c, c, 1, false))
  }

  ghost predicate DriverHeld(run: Run, d: Driver) {
    && !d.sync && d.run.info == run.info
    && d.run.context == run.context && d.run.cost == run.cost && d.run.cursor == run.cursor
    && run.cursor.Some? && PcHeld(run.cursor.value, d.pc)
  }

  ghost predicate Held(env: Env, w: World, r: Id, i: nat) {
    && r in w.s.tables.runs && w.s.tables.runs[r].info.id == r
    && Blocked(env, w.s.tables, w.s.tables.runs[r], i)
    && (forall j :: j in w.drivers && w.drivers[j].run.info.id == r ==> DriverHeld(w.s.tables.runs[r], w.drivers[j]))
  }

  // ---- the run's own driver ------------------------------------------------------------

  ghost predicate StandsStill(d: Driver, p: Plan, c: Id) {
    && (forall j :: 0 <= j < |p.acts| ==> !p.acts[j].Posted?)
    && p.keep.None? && p.cost == 0.0 && p.cursor == d.run.cursor
    && (p.op.Nothing? || p.op.Commit?)
    && (p.goal.Goto? ==> PcHeld(c, p.goal.pc))
  }

  lemma HeldReady(env: Env, s: Shared, d: Driver, run: Run, f: Frame)
    requires NeedsApproval(env, s.tables, run, f.step) && !f.comp
    requires d.run.info == run.info && d.run.context == run.context
    ensures var p := PlanReady(env, s, d, f);
            && p.goal.Goto? && p.goal.pc.Asking? && p.goal.pc.f == f && p.op.Nothing? && p.keep.None?
            && p.cost == 0.0 && p.cursor == d.run.cursor && p.status == d.run.status && p.late == []
            && (forall j :: 0 <= j < |p.acts| ==> !p.acts[j].Posted?)
            && (forall j :: 0 <= j < |p.events| ==> p.events[j].tenant == d.run.info.tenant)
  {
  }

  lemma HeldPlan(env: Env, s: Shared, d: Driver, run: Run, i: nat, c: Choice)
    requires Blocked(env, s.tables, run, i) && DriverHeld(run, d)
    ensures StandsStill(d, PlanFor(env, s, d, c), run.cursor.value)
  {
    if d.pc.Ready? { HeldReady(env, s, d, run, d.pc.f); }
  }

  // ---- keys of different runs differ ------------------------------------------------------

  /** Run ids are a prefix and hexadecimal digits: no colon. */
  ghost predicate NoColon(id: Id) {
    forall j :: 0 <= j < |id| ==> id[j] != ':'
  }

  /** Keys of different runs differ; and if tool names hold no colon either, so do
      the keys of different steps and tools of a run. */
  lemma KeysApart(r: Id, r': Id, s: Id, s': Id, t: string, t': string)
    requires NoColon(r) && NoColon(r') && EffectKey(r, s, t) == EffectKey(r', s', t')
    ensures r == r'
    ensures NoColon(t) && NoColon(t') ==> s == s' && t == t'
  {
    var k, k' := EffectKey(r, s, t), EffectKey(r', s', t');
    assert k[|r|] == ':' && k'[|r'|] == ':';
    assert k[..|r|] == r && k'[..|r'|] == r';
    if NoColon(t) && NoColon(t') {
      assert k == (r + ":" + s) + [':'] + t && k' == (r' + ":" + s') + [':'] + t';
      LastPart(r + ":" + s, t, r' + ":" + s', t', ':');
      assert (r + ":" + s)[|r| + 1..] == s && (r' + ":" + s')[|r'| + 1..] == s';
    }
  }

  ghost predicate PlainIds(acts: seq<Action>) {
    forall j :: 0 <= j < |acts| && acts[j].Fire? ==> NoColon(acts[j].id)
  }

  ghost predicate NeverApproved(acts: seq<Action>, i: nat) {
    forall j :: 0 <= j < |acts| && acts[j].Resolve? && acts[j].approval == i ==> !acts[j].approved
  }

  // ---- every action ---------------------------------------------------------------------------

  ghost predicate Same(run: Run, run': Run) {
    run'.info == run.info && run'.cursor == run.cursor && run'.context == run.context && run'.cost == run.cost
  }

  /** `log'` continues `log` without any operation posted for run `r`. */
  ghost predicate NoPosts(log: seq<Act>, log': seq<Act>, r: Id) {
    log <= log' && forall j :: |log| <= j < |log'| && log'[j].Posted? ==> log'[j].run != r
  }

  ghost predicate Stays(env: Env, w: World, w': World, r: Id, i: nat) {
    && Held(env, w', r, i)
    && r in w.s.tables.runs && Same(w.s.tables.runs[r], w'.s.tables.runs[r])
    && NoPosts(w.s.log, w'.s.log, r)
  }

  ghost predicate Before(env: Env, w: World, r: Id, i: nat) {
    A.Inv(env, w) && Held(env, w, r, i) && forall q :: q in w.s.tables.runs ==> NoColon(q)
  }

  lemma {:induction false} LatestIs(rows: seq<Approval>, tenant: Id, r: Id, c: Id, i: nat)
    requires i < |rows| && Concerns(rows[i], tenant, r, c)
    requires forall j :: i < j < |rows| ==> !Concerns(rows[j], tenant, r, c)
    ensures Latest(rows, tenant, r, c) == Some(i)
  {
    if i < |rows| - 1 {
      LatestIs(rows[..|rows| - 1], tenant, r, c, i);
    }
  }

  /** The approval table as the held run sees it. */
  lemma LatestKept(a: seq<Approval>, a': seq<Approval>, tenant: Id, r: Id, c: Id, i: nat)
    requires Latest(a, tenant, r, c) == Some(i) && A.RowsKept(a, a')
    requires forall j :: |a| <= j < |a'| ==> a'[j].run != r
    ensures Latest(a', tenant, r, c) == Some(i)
  {
    forall j | i < j < |a'| ensures !Concerns(a'[j], tenant, r, c) {
      if j < |a| { assert !Concerns(a[j], tenant, r, c); }
    }
    LatestIs(a', tenant, r, c, i);
  }

  lemma OwnStep(env: Env, w: World, a: Action, r: Id, i: nat)
    requires Held(env, w, r, i)
    requires a.Drive? && a.d in w.drivers && w.drivers[a.d].run.info.id == r
    requires SD.DriverInv(env, w.s.tables, w.drivers[a.d])
    ensures Stays(env, w, Next(env, w, a), r, i)
  {
    var d, run := w.drivers[a.d], w.s.tables.runs[r];
    var p := PlanFor(env, w.s, d, a.c);
    HeldPlan(env, w.s, d, run, i, a.c);
    SD.PlanSound(env, w.s, d, a.c);
    SD.StepTables(env, w.s, d, p);
    var t := TablesAfter(w.s.tables, d, p);
    assert t.approvals == w.s.tables.approvals && t.effects == w.s.tables.effects;
    assert Same(run, t.runs[r]);
    assert NeedsApproval(env, t, t.runs[r], run.cursor.value);
  }

  lemma PostsOwn(env: Env, s: Shared, d: Driver, c: Choice)
    ensures forall j :: 0 <= j < |PlanFor(env, s, d, c).acts| && PlanFor(env, s, d, c).acts[j].Posted? ==>
              PlanFor(env, s, d, c).acts[j].run == d.run.info.id
  {
    if d.pc.Ready? { PostsReady(env, s, d, d.pc.f); }
    else if d.pc.Asking? || d.pc.Answering? || d.pc.Requesting? || d.pc.Pausing? { PostsApproval(env, s, d, c); }
  }

  lemma PostsReady(env: Env, s: Shared, d: Driver, f: Frame)
    ensures forall j :: 0 <= j < |PlanReady(env, s, d, f).acts| ==> !PlanReady(env, s, d, f).acts[j].Posted?
  {
  }

  lemma PostsApproval(env: Env, s: Shared, d: Driver, c: Choice)
    requires d.pc.Asking? || d.pc.Answering? || d.pc.Requesting? || d.pc.Pausing?
    ensures forall j :: 0 <= j < |PlanFor(env, s, d, c).acts| ==> !PlanFor(env, s, d, c).acts[j].Posted?
  {
  }

  lemma OtherEffects(env: Env, t: Tables, d: Driver, p: Plan, run: Run, c: Id)
    requires NeedsApproval(env, t, run, c) && NoColon(run.info.id) && NoColon(d.run.info.id) && d.run.info.id != run.info.id
    ensures NeedsApproval(env, TablesAfter(t, d, p), run, c)
  {
    var node := StepOf(env, run.info.workflow, c).node;
    if p.op.Record? && node.ToolNode? && EffectKey(d.run.info.id, p.op.step, p.op.tool) == EffectKey(run.info.id, c, node.tool) {
      KeysApart(d.run.info.id, run.info.id, p.op.step, c, p.op.tool, node.tool);
    }
  }

  lemma OtherStep(env: Env, w: World, a: Action, r: Id, i: nat)
    requires Held(env, w, r, i) && NoColon(r)
    requires a.Drive? && a.d in w.drivers && w.drivers[a.d].run.info.id != r && NoColon(w.drivers[a.d].run.info.id)
    requires SD.DriverInv(env, w.s.tables, w.drivers[a.d]) && A.DriverInv(env, w.s.tables, w.drivers[a.d])
    ensures Stays(env, w, Next(env, w, a), r, i)
  {
    var d := w.drivers[a.d];
    SD.PlanSound(env, w.s, d, a.c);
    A.PlanOk(env, w.s, d, a.c);
    PostsOwn(env, w.s, d, a.c);
    OtherTables(env, w.s, d, PlanFor(env, w.s, d, a.c), r, i);
  }

  lemma OtherTables(env: Env, s: Shared, d: Driver, p: Plan, r: Id, i: nat)
    requires r in s.tables.runs && s.tables.runs[r].info.id == r && Blocked(env, s.tables, s.tables.runs[r], i)
    requires d.run.info.id != r && NoColon(r) && NoColon(d.run.info.id)
    requires SD.DriverInv(env, s.tables, d) && A.DriverInv(env, s.tables, d)
    requires SD.Sound(env, s, d, p) && A.OpOk(s, d, p)
    ensures var t := TablesAfter(s.tables, d, p);
            r in t.runs && t.runs[r] == s.tables.runs[r] && Blocked(env, t, t.runs[r], i)
  {
    var run, t := s.tables.runs[r], TablesAfter(s.tables, d, p);
    SD.StepTables(env, s, d, p);
    A.StepApprovals(env, s, d, p);
    LatestKept(s.tables.approvals, t.approvals, run.info.tenant, r, run.cursor.value, i);
    OtherEffects(env, s.tables, d, p, run, run.cursor.value);
  }

  lemma ResolveStays(env: Env, w: World, a: Action, r: Id, i: nat)
    requires Held(env, w, r, i) && (a.Resolve? && a.approval == i ==> !a.approved)
    ensures a.Resolve? ==> Stays(env, w, Next(env, w, a), r, i)
  {
    if a.Resolve? {
      var t := ResolveApproval(w.s.tables, a.tenant, a.approval, a.approved);
      if t.Some? {
        var run := w.s.tables.runs[r];
        LatestKept(w.s.tables.approvals, t.value.approvals, run.info.tenant, r, run.cursor.value, i);
        assert NeedsApproval(env, t.value, run, run.cursor.value);
      }
    }
  }

  lemma FireStays(env: Env, w: World, a: Action, r: Id, i: nat)
    requires Held(env, w, r, i)
    ensures a.Fire? ==> Stays(env, w, Next(env, w, a), r, i)
  {
    if a.Fire? && a.wf in env.workflows && Fresh(w.s.tables, NewRun(env, a)) {
      BlockedRow(env, w.s.tables, CreateRun(w.s.tables, NewRun(env, a)), r, i);
    }
  }

  lemma StartStays(env: Env, w: World, a: Action, r: Id, i: nat)
    requires Held(env, w, r, i) && A.Async(a) && (forall q :: q in w.s.tables.runs ==> w.s.tables.runs[q].info.id == q)
    ensures a.Start? ==> Stays(env, w, Next(env, w, a), r, i)
  {
  }

  lemma CancelStays(env: Env, w: World, a: Action, r: Id, i: nat)
    requires Held(env, w, r, i)
    ensures a.Cancel? ==> Stays(env, w, Next(env, w, a), r, i)
  {
    if a.Cancel? { BlockedRow(env, w.s.tables, NextCancel(w, a.tenant, a.id).s.tables, r, i); }
  }

  lemma PurgeStays(env: Env, w: World, a: Action, r: Id, i: nat)
    requires Held(env, w, r, i)
    ensures a.PurgePayloads? ==> Stays(env, w, Next(env, w, a), r, i)
  {
    if a.PurgePayloads? { BlockedRow(env, w.s.tables, Purge(w.s.tables, a.tenant, a.stale), r, i); }
  }

  lemma RestStays(env: Env, w: World, a: Action, r: Id, i: nat)
    requires Held(env, w, r, i)
    ensures a.Crash? || a.Arrive? ==> Stays(env, w, Next(env, w, a), r, i)
  {
  }

  /** What blocks a run is not in its status or in the events. */
  lemma BlockedRow(env: Env, t: Tables, t': Tables, r: Id, i: nat)
    requires r in t.runs && r in t'.runs && Blocked(env, t, t.runs[r], i)
    requires t'.runs[r] == t.runs[r].(status := t'.runs[r].status)
    requires t'.approvals == t.approvals && t'.effects == t.effects
    ensures Blocked(env, t', t'.runs[r], i)
  {
  }

  lemma IdsKept(env: Env, w: World, a: Action)
    requires A.Inv(env, w) && (forall q :: q in w.s.tables.runs ==> NoColon(q)) && (a.Fire? ==> NoColon(a.id))
    ensures forall q :: q in Next(env, w, a).s.tables.runs ==> NoColon(q)
  {
    if a.Drive? && a.d in w.drivers { DriveIds(env, w.s, w.drivers[a.d], a.c); }
  }

  lemma DriveIds(env: Env, s: Shared, d: Driver, c: Choice)
    requires SD.DriverInv(env, s.tables, d)
    ensures TablesAfter(s.tables, d, PlanFor(env, s, d, c)).runs.Keys == s.tables.runs.Keys
  {
    SD.PlanSound(env, s, d, c);
    SD.StepTables(env, s, d, PlanFor(env, s, d, c));
  }

  /** However often the run is resumed, crashed and resumed again, and whatever
      other runs do: as long as nobody approves, it posts nothing, and its
      committed cursor, context and cost stay as they are. */
  lemma {:induction false} HeldStandsStill(env: Env, w: World, acts: seq<Action>, r: Id, i: nat)
    requires Before(env, w, r, i) && SD.SerialRun(env, w, acts) && A.AsyncRun(acts)
    requires PlainIds(acts) && NeverApproved(acts, i)
    ensures Stays(env, w, Exec(env, w, acts), r, i)
    decreases acts
  {
    if acts != [] {
      NextStays(env, w, acts[0], r, i);
      NextBefore(env, w, acts[0], r, i);
      HeldStandsStill(env, Next(env, w, acts[0]), acts[1..], r, i);
    }
  }

  lemma {:induction false} PlainRuns(env: Env, w: World, acts: seq<Action>)
    requires A.Inv(env, w) && SD.SerialRun(env, w, acts) && A.AsyncRun(acts) && PlainIds(acts)
    requires forall q :: q in w.s.tables.runs ==> NoColon(q)
    ensures forall q :: q in Exec(env, w, acts).s.tables.runs ==> NoColon(q)
    decreases acts
  {
    if acts != [] {
      var a := acts[0];
      IdsKept(env, w, a);
      assert Exec(env, w, [a]) == Next(env, w, a) by { assert [a][1..] == []; }
      A.ExecInv(env, w, [a]);
      PlainRuns(env, Next(env, w, a), acts[1..]);
    }
  }

  /** The same from the start of the system: if after `acts` the run is blocked by
      approval `i` and has no driver, then through any `more` without an approval
      of `i` it posts nothing and stays where it is. */
  lemma BlockedForever(env: Env, acts: seq<Action>, more: seq<Action>, r: Id, i: nat)
    requires SD.SerialRun(env, INIT, acts) && A.AsyncRun(acts) && PlainIds(acts)
    requires SD.SerialRun(env, Exec(env, INIT, acts), more) && A.AsyncRun(more) && PlainIds(more)
    requires NeverApproved(more, i)
    requires var w := Exec(env, INIT, acts);
             r in w.s.tables.runs && SD.NoDriver(w, r) && Blocked(env, w.s.tables, w.s.tables.runs[r], i)
    ensures var w := Exec(env, INIT, acts);
            var w' := Exec(env, w, more);
            && r in w'.s.tables.runs && Same(w.s.tables.runs[r], w'.s.tables.runs[r])
            && NoPosts(w.s.log, w'.s.log, r)
  {
    A.ExecInv(env, INIT, acts);
    PlainRuns(env, INIT, acts);
    HeldStandsStill(env, Exec(env, INIT, acts), more, r, i);
  }

  lemma NextStays(env: Env, w: World, a: Action, r: Id, i: nat)
    requires Before(env, w, r, i) && A.Async(a) && (a.Resolve? && a.approval == i ==> !a.approved)
    ensures Stays(env, w, Next(env, w, a), r, i)
  {
    if a.Drive? && a.d in w.drivers {
      if w.drivers[a.d].run.info.id == r { OwnStep(env, w, a, r, i); } else { OtherStep(env, w, a, r, i); }
    }
    ResolveStays(env, w, a, r, i);
    FireStays(env, w, a, r, i);
    StartStays(env, w, a, r, i);
    CancelStays(env, w, a, r, i);
    PurgeStays(env, w, a, r, i);
    RestStays(env, w, a, r, i);
  }

  lemma NextBefore(env: Env, w: World, a: Action, r: Id, i: nat)
    requires Before(env, w, r, i) && A.Async(a) && SD.Serial(w, a) && (a.Fire? ==> NoColon(a.id))
    requires Held(env, Next(env, w, a), r, i)
    ensures Before(env, Next(env, w, a), r, i)
  {
    IdsKept(env, w, a);
    assert Exec(env, w, [a]) == Next(env, w, a) by { assert [a][1..] == []; }
    A.ExecInv(env, w, [a]);
  }

  // ---- resuming a held run ------------------------------------------------------------------------

  /** What committing driver `d` with plan `p` leaves, when nothing is booked. */
  lemma CommitStatus(s: Shared, d: Driver, p: Plan)
    requires p.op.Commit? && CanCommit(s, d) && AllOf(p.events, d.run.info.tenant)
    requires d.run.info.id in s.tables.runs
    ensures var t := TablesAfter(s.tables, d, p); d.run.info.id in t.runs && t.runs[d.run.info.id].status == p.status
  {
    assert AllOf(d.buffer + p.events, d.run.info.tenant);
  }

  /** The last two points: the decision is read, and its outcome committed. */
  lemma SettleHeld(env: Env, s: Shared, d: Driver, i: nat)
    requires !d.sync && d.pc.Asking? && !d.pc.f.comp && CanCommit(s, d) && d.run.info.id in s.tables.runs
    requires Latest(s.tables.approvals, d.run.info.tenant, d.run.info.id, d.pc.f.step) == Some(i)
    requires s.tables.approvals[i].status != Approved
    ensures var t := Steps(env, Turn(s, Live(d)), [Choose(Proceed), Choose(Proceed)]);
            var rejected := s.tables.approvals[i].status == Rejected;
            && t.o == Ended(if rejected then EndFailed else EndPaused)
            && d.run.info.id in t.s.tables.runs
            && t.s.tables.runs[d.run.info.id].status == (if rejected then Failed else WaitingApproval)
            && t.s.log == s.log && t.s.entries == s.entries
  {
    var t1 := DriverStep(env, s, d, Proceed);
    assert t1.o.Live? && t1.s.tables == s.tables;
    var d1 := t1.o.d;
    var p1 := PlanFor(env, t1.s, d1, Proceed);
    assert CanCommit(t1.s, d1);
    CommitStatus(t1.s, d1, p1);
    assert [Choose(Proceed), Choose(Proceed)][1..] == [Choose(Proceed)];
    assert [Choose(Proceed)][1..] == [];
  }

  /** The step is entered and the approval about to be looked up. */
  lemma ReadyHeld(env: Env, s: Shared, d: Driver, run: Run, i: nat) returns (t: Turn)
    requires Blocked(env, s.tables, run, i) && d.run.info == run.info && d.run.context == run.context && !d.sync
    requires d.pc == Ready(Frame(run.cursor.value, run.cursor.value, 1, false)) && CanCommit(s, d)
    ensures t == DriverStep(env, s, d, Proceed) && t.o.Live? && t.s.tables == s.tables && t.s.entries == s.entries
    ensures t.o.d.run.info == run.info && !t.o.d.sync && t.o.d.pc.Asking? && t.o.d.pc.f == d.pc.f
    ensures CanCommit(t.s, t.o.d) && NoPosts(s.log, t.s.log, run.info.id)
  {
    t := DriverStep(env, s, d, Proceed);
    HeldReady(env, s, d, run, d.pc.f);
  }

  /** Resuming a held run to its end, uncrashed: it fails if the decision is a
      rejection (or the budget is used up) and pauses again if it is pending;
      either way nothing is posted. */
  lemma ResumeHeld(env: Env, s: Shared, id: nat, r: Id, i: nat)
    requires r in s.tables.runs && s.tables.runs[r].info.id == r && Blocked(env, s.tables, s.tables.runs[r], i)
    requires s.tables.runs[r].cursor.value in WorkflowOf(env, s.tables.runs[r].info.workflow).steps
    requires StepOf(env, s.tables.runs[r].info.workflow, s.tables.runs[r].cursor.value).maxAttempts >= 1
    ensures var run := s.tables.runs[r];
            var t := Steps(env, Turn(s, Live(Driving(env, id, false, run, []))), seq(4, _ => Choose(Proceed)));
            var over := OverBudget(WorkflowOf(env, run.info.workflow), run);
            var failed := over || s.tables.approvals[i].status == Rejected;
            && t.o == Ended(if failed then EndFailed else EndPaused)
            && r in t.s.tables.runs
            && t.s.tables.runs[r].status == (if failed then Failed else WaitingApproval)
            && t.s.entries == s.entries
            && NoPosts(s.log, t.s.log, r)
  {
    var run := s.tables.runs[r];
    var d := Driving(env, id, false, run, []);
    var t1 := DriverStep(env, s, d, Proceed);
    var four := seq(4, _ => Choose(Proceed));
    assert four[1..][1..] == [Choose(Proceed), Choose(Proceed)];
    assert Steps(env, Turn(s, Live(d)), four) == Steps(env, t1, four[1..]);
    if OverBudget(WorkflowOf(env, run.info.workflow), run) {
      CommitStatus(s, d, PlanFor(env, s, d, Proceed));
    } else {
      assert t1.s.tables == s.tables && t1.o.d.pc == Ready(Frame(run.cursor.value, run.cursor.value, 1, false));
      var t2 := ReadyHeld(env, t1.s, t1.o.d, run, i);
      SettleHeld(env, t2.s, t2.o.d, i);
      assert Steps(env, t1, four[1..]) == Steps(env, t2, [Choose(Proceed), Choose(Proceed)]);
    }
  }
}
