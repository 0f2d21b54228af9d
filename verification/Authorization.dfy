/** Authorization over histories: nothing is posted to an external system
    without a policy decision that allowed it, or one that required approval
    followed by an approval for that run and step which had been granted. */
module Authorization {
  import opened Core
  import opened StoreSpec
  import opened Machine
  import P = Policies
  import opened Tools

  // ---- what makes a history entry legitimate --------------------------------------

  ghost predicate Earlier(log: seq<Act>, i: nat, a: Act) {
    i <= |log| && exists j :: 0 <= j < i && log[j] == a
  }

  ghost predicate Resolves(a: Act, approval: nat) {
    a.Resolved? && a.approval == approval
  }

  /** The last decision on the approval before position `i` is that it is granted. */
  ghost predicate LastApproved(log: seq<Act>, i: nat, approval: nat) {
    exists j :: 0 <= j < i <= |log| && log[j] == Resolved(approval, true) &&
                forall k :: j < k < i ==> !Resolves(log[k], approval)
  }

  /** The gate really answers this for some agent of the caller's name. */
  ghost predicate TrueDecision(env: Env, tool: string, caller: Caller, args: Dict, ctx: Dict, effect: Effect) {
    tool in env.tools &&
    match caller
    case ByNode => effect == Gate(env, SystemAgent(tool), env.tools[tool].(name := tool), args, ctx)
    case ByAgent(n) =>
      exists a: Agent :: a.name == n && effect == Gate(env, a, env.tools[tool].(name := tool), args, ctx)
  }

  ghost predicate TrueOperation(env: Env, p: Act)
    requires p.Posted?
  {
    && p.tool in env.tools && env.tools[p.tool].sideEffect
    && var a := CallArgs(p.run, p.step, p.caller, p.tool, p.args);
       p.key == OpKey(a) && p.value == env.tools[p.tool].post(a)
  }

  /** The approval row is for this run and step. */
  ghost predicate RowFor(approvals: seq<Approval>, a: nat, run: Id, step: Id) {
    a < |approvals| && approvals[a].run == run && approvals[a].step == step
  }

  /** Before position `i`: allowed, or sent to a human and seen as granted. */
  ghost predicate Cleared(log: seq<Act>, i: nat, p: Act)
    requires p.Posted?
  {
    || Earlier(log, i, Decided(p.who, p.run, p.step, p.caller, p.tool, p.args, p.ctx, Allow))
    || (&& p.caller == ByNode
        && Earlier(log, i, Decided(p.who, p.run, p.step, ByNode, p.tool, p.args, p.ctx, RequireApproval))
        && exists a :: Earlier(log, i, Granted(p.who, p.run, p.step, a)))
  }

  ghost predicate Legit(env: Env, approvals: seq<Approval>, log: seq<Act>, i: nat)
    requires i < |log|
  {
    match log[i]
    case Decided(_, _, _, caller, tool, args, ctx, effect) => TrueDecision(env, tool, caller, args, ctx, effect)
    case Granted(_, run, step, a) => RowFor(approvals, a, run, step) && LastApproved(log, i, a)
    case Resolved(_, _) => true
    case Observed(_, _, _, _, _, _, _) => true
    case Heard(_, _, _, _) => true
    case Posted(_, _, _, _, _, _, _, _, _) => TrueOperation(env, log[i]) && Cleared(log, i, log[i])
  }

  ghost predicate LogLegit(env: Env, approvals: seq<Approval>, log: seq<Act>) {
    forall i :: 0 <= i < |log| ==> Legit(env, approvals, log, i)
  }

  /** A row counts as approved only because the last decision on it was so. */
  ghost predicate RowsExplained(approvals: seq<Approval>, log: seq<Act>) {
    forall a :: 0 <= a < |approvals| && approvals[a].status == Approved ==> LastApproved(log, |log|, a)
  }

  ghost predicate EntryExplained(log: seq<Act>, k: Json, v: Json) {
    exists i :: 0 <= i < |log| && log[i].Posted? && log[i].key == k && log[i].value == v
  }

  /** Every external entry is the value of an operation somebody posted. */
  ghost predicate EntriesExplained(entries: map<Json, Json>, log: seq<Act>) {
    forall k :: k in entries ==> EntryExplained(log, k, entries[k])
  }

  // ---- what a driver carries --------------------------------------------------------

  ghost predicate Escalated(log: seq<Act>, who: nat, run: Id, step: Id, p: Purpose, ctx: Dict) {
    p.ForCall? ==> Decided(who, run, step, ByNode, p.tool, p.args, ctx, RequireApproval) in log
  }

  ghost predicate MayRun(log: seq<Act>, who: nat, run: Id, step: Id, tool: string, args: Dict, ctx: Dict) {
    || Decided(who, run, step, ByNode, tool, args, ctx, Allow) in log
    || (&& Decided(who, run, step, ByNode, tool, args, ctx, RequireApproval) in log
        && exists a :: Granted(who, run, step, a) in log)
  }

  ghost predicate Carries(env: Env, approvals: seq<Approval>, log: seq<Act>, who: nat, info: RunInfo, ctx: Dict, pc: Pc) {
    match pc
    case Asking(f, p) => Escalated(log, who, info.id, f.step, p, ctx)
    case Requesting(f, p) => Escalated(log, who, info.id, f.step, p, ctx)
    case Answering(f, p, a) => Escalated(log, who, info.id, f.step, p, ctx) && RowFor(approvals, a, info.id, f.step)
    case Executing(f, tool, args, _) => MayRun(log, who, info.id, f.step, tool, args, ctx)
    case Calling(f, _, _, calls, _, _) =>
      calls != [] ==>
        Decided(who, info.id, f.step, ByAgent(AgentOf(env, info.workflow, f).name),
                calls[0].tool, calls[0].args, ctx, Allow) in log
    case _ => true
  }

  ghost predicate DriverInv(env: Env, s: Shared, d: Driver) {
    Carries(env, s.tables.approvals, s.log, d.id, d.run.info, d.run.context, d.pc)
  }

  ghost predicate SharedInv(env: Env, s: Shared) {
    && LogLegit(env, s.tables.approvals, s.log)
    && RowsExplained(s.tables.approvals, s.log)
    && EntriesExplained(s.entries, s.log)
  }

  ghost predicate Inv(env: Env, w: World) {
    SharedInv(env, w.s) && forall i :: i in w.drivers ==> DriverInv(env, w.s, w.drivers[i])
  }

  // ---- growing histories ------------------------------------------------------------

  ghost predicate ApprovalsKept(a: seq<Approval>, a': seq<Approval>) {
    |a| <= |a'| && forall i :: 0 <= i < |a| ==> a'[i].run == a[i].run && a'[i].step == a[i].step
  }

  lemma EarlierGrows(log: seq<Act>, log': seq<Act>, i: nat, a: Act)
    requires log <= log' && Earlier(log, i, a)
    ensures Earlier(log', i, a)
  {
    var j :| 0 <= j < i && log[j] == a;
    assert log'[j] == a;
  }

  lemma EarlierIn(log: seq<Act>, log': seq<Act>, i: nat, a: Act)
    requires log <= log' && |log| <= i <= |log'| && a in log
    ensures Earlier(log', i, a)
  {
    var j :| 0 <= j < |log| && log[j] == a;
    assert log'[j] == a;
  }

  lemma LastGrows(log: seq<Act>, log': seq<Act>, i: nat, a: nat)
    requires log <= log' && LastApproved(log, i, a)
    ensures LastApproved(log', i, a)
  {
    var j :| 0 <= j < i && log[j] == Resolved(a, true) && forall k :: j < k < i ==> !Resolves(log[k], a);
    assert log'[j] == log[j];
    assert forall k :: j < k < i ==> log'[k] == log[k];
  }

  /** A decision stands as long as nobody decides again. */
  lemma LastStands(log: seq<Act>, more: seq<Act>, a: nat)
    requires LastApproved(log, |log|, a) && forall k :: 0 <= k < |more| ==> !Resolves(more[k], a)
    ensures LastApproved(log + more, |log + more|, a)
  {
    var j :| 0 <= j < |log| && log[j] == Resolved(a, true) && forall k :: j < k < |log| ==> !Resolves(log[k], a);
    var all := log + more;
    assert all[j] == log[j];
    forall k | j < k < |all| ensures !Resolves(all[k], a) {
      assert all[k] == if k < |log| then log[k] else more[k - |log|];
    }
  }

  lemma LegitGrows(env: Env, a: seq<Approval>, a': seq<Approval>, log: seq<Act>, log': seq<Act>, i: nat)
    requires ApprovalsKept(a, a') && log <= log' && i < |log| && Legit(env, a, log, i)
    ensures Legit(env, a', log', i)
  {
    var x := log[i];
    assert log'[i] == x;
    match x
    case Granted(_, _, _, n) => LastGrows(log, log', i, n);
    case Posted(_, _, _, _, _, _, _, _, _) =>
      var allow := Decided(x.who, x.run, x.step, x.caller, x.tool, x.args, x.ctx, Allow);
      if Earlier(log, i, allow) {
        EarlierGrows(log, log', i, allow);
      } else {
        EarlierGrows(log, log', i, Decided(x.who, x.run, x.step, ByNode, x.tool, x.args, x.ctx, RequireApproval));
        var n :| Earlier(log, i, Granted(x.who, x.run, x.step, n));
        EarlierGrows(log, log', i, Granted(x.who, x.run, x.step, n));
      }
    case _ =>
  }

  lemma CarriesGrows(env: Env, s: Shared, s': Shared, d: Driver)
    requires ApprovalsKept(s.tables.approvals, s'.tables.approvals) && s.log <= s'.log && DriverInv(env, s, d)
    ensures DriverInv(env, s', d)
  {
    assert forall x :: x in s.log ==> x in s'.log;
  }

  // ---- one driver step ----------------------------------------------------------------

  ghost predicate NewOk(env: Env, s: Shared, a': seq<Approval>, acts: seq<Act>, i: nat)
    requires i < |acts|
  {
    match acts[i]
    case Decided(_, _, _, caller, tool, args, ctx, effect) => TrueDecision(env, tool, caller, args, ctx, effect)
    case Granted(_, run, step, a) =>
      RowFor(a', a, run, step) &&
      ((i == 0 && LastApproved(s.log, |s.log|, a)) || (i == 1 && acts[0] == Resolved(a, true)))
    case Resolved(_, _) => true
    case Observed(_, _, _, _, _, _, _) => true
    case Heard(_, _, _, _) => true
    case Posted(who, run, step, caller, tool, args, ctx, _, _) =>
      && TrueOperation(env, acts[i])
      && match caller
         case ByNode => MayRun(s.log, who, run, step, tool, args, ctx)
         case ByAgent(_) => Decided(who, run, step, caller, tool, args, ctx, Allow) in s.log
  }

  ghost predicate PlanOk(env: Env, s: Shared, d: Driver, p: Plan) {
    var a' := TablesAfter(s.tables, d, p).approvals;
    && (forall i :: 0 <= i < |p.acts| ==> NewOk(env, s, a', p.acts, i))
    && (p.op.SettleApproval? ==>
          && p.acts != [] && p.acts[0] == Resolved(p.op.approval, p.op.granted)
          && ResolveApproval(s.tables, d.run.info.tenant, p.op.approval, p.op.granted).Some?)
    && (forall i :: 0 <= i < |p.acts| && p.acts[i].Resolved? ==> i == 0 && p.op.SettleApproval?)
    && (p.goal.Goto? ==> Carries(env, a', s.log + p.acts, d.id, d.run.info, RunAfter(d, p).context, p.goal.pc))
  }

  lemma GateOk(env: Env, s: Shared, d: Driver, f: Frame, tool: Tool, args: Dict)
    requires tool.name in env.tools && tool == env.tools[tool.name].(name := tool.name)
    ensures PlanOk(env, s, d, PlanGate(env, d, f, tool, args))
  {
    var p := PlanGate(env, d, f, tool, args);
    assert p.acts[0] in s.log + p.acts;
  }

  lemma ReadyOk(env: Env, s: Shared, d: Driver, f: Frame)
    ensures PlanOk(env, s, d, PlanReady(env, s, d, f))
  {
    var step := StepOf(env, d.run.info.workflow, f.step);
    if step.node.ToolNode? && step.node.tool in env.tools && step.args(d.run.context).Some? {
      GateOk(env, s, d, f, env.tools[step.node.tool].(name := step.node.tool), step.args(d.run.context).value);
    }
  }

  lemma CallsOk(env: Env, s: Shared, d: Driver)
    requires d.pc.Calls?
    ensures PlanOk(env, s, d, PlanCalls(env, d, d.pc))
  {
    var p := PlanCalls(env, d, d.pc);
    if p.acts != [] {
      assert p.acts[0] in s.log + p.acts;
    }
  }

  lemma CallingOk(env: Env, s: Shared, d: Driver, c: Choice)
    requires d.pc.Calling? && DriverInv(env, s, d)
    ensures PlanOk(env, s, d, PlanCalling(env, s, d, d.pc, c))
  {
    var p := PlanCalling(env, s, d, d.pc, c);
    assert forall x :: x in s.log ==> x in s.log + p.acts;
  }

  lemma ExecutingOk(env: Env, s: Shared, d: Driver, c: Choice)
    requires d.pc.Executing? && DriverInv(env, s, d)
    ensures PlanOk(env, s, d, PlanExecuting(env, s, d, d.pc, c))
  {
    var p := PlanExecuting(env, s, d, d.pc, c);
    assert forall x :: x in s.log ==> x in s.log + p.acts;
  }

  lemma AskingOk(env: Env, s: Shared, d: Driver)
    requires d.pc.Asking? && DriverInv(env, s, d) && RowsExplained(s.tables.approvals, s.log)
    ensures PlanOk(env, s, d, PlanAsking(env, s, d, d.pc.f, d.pc.p))
  {
    var p := PlanAsking(env, s, d, d.pc.f, d.pc.p);
    assert forall x :: x in s.log ==> x in s.log + p.acts;
    if p.acts != [] {
      assert p.acts[0] in s.log + p.acts;
    }
  }

  lemma AnsweringOk(env: Env, s: Shared, d: Driver, c: Choice)
    requires d.pc.Answering? && DriverInv(env, s, d)
    ensures PlanOk(env, s, d, PlanAnswering(env, s, d, d.pc, c))
  {
    var p := PlanAnswering(env, s, d, d.pc, c);
    if c.Answer? && c.granted { GrantedOk(env, s, d, c); }
    assert forall x :: x in s.log ==> x in s.log + p.acts;
  }

  lemma GrantedOk(env: Env, s: Shared, d: Driver, c: Choice)
    requires d.pc.Answering? && DriverInv(env, s, d) && c == Answer(true)
    ensures PlanOk(env, s, d, PlanAnswering(env, s, d, d.pc, c))
  {
    var p := PlanAnswering(env, s, d, d.pc, c);
    assert forall x :: x in s.log ==> x in s.log + p.acts;
    if |p.acts| == 2 {
      assert p.acts[1] in s.log + p.acts;
    }
  }

  lemma PlanFine(env: Env, s: Shared, d: Driver, c: Choice)
    requires DriverInv(env, s, d) && RowsExplained(s.tables.approvals, s.log)
    ensures PlanOk(env, s, d, PlanFor(env, s, d, c))
  {
    if d.pc.Ready? { ReadyOk(env, s, d, d.pc.f); }
    else if d.pc.Calls? { CallsOk(env, s, d); }
    else if d.pc.Calling? { CallingOk(env, s, d, c); }
    else if d.pc.Executing? { ExecutingOk(env, s, d, c); }
    else if d.pc.Asking? { AskingOk(env, s, d); }
    else if d.pc.Answering? { AnsweringOk(env, s, d, c); }
    else if d.pc.Requesting? { RequestingOk(env, s, d, c); }
    else { QuietOk(env, s, d, c); }
  }

  lemma RequestingOk(env: Env, s: Shared, d: Driver, c: Choice)
    requires d.pc.Requesting?
    ensures PlanOk(env, s, d, PlanFor(env, s, d, c))
  {
  }

  lemma QuietOk(env: Env, s: Shared, d: Driver, c: Choice)
    requires d.pc.Top? || d.pc.Think? || d.pc.Pausing? || d.pc.Recording? || d.pc.Advancing? || d.pc.Failing?
    ensures PlanOk(env, s, d, PlanFor(env, s, d, c))
  {
    if d.pc.Top? || d.pc.Advancing? || d.pc.Failing? { WalkOk(env, s, d, c); }
    else if d.pc.Think? { ThinkOk(env, s, d, c); }
    else { BookOk(env, s, d, c); }
  }

  lemma ThinkOk(env: Env, s: Shared, d: Driver, c: Choice)
    requires d.pc.Think?
    ensures PlanOk(env, s, d, PlanFor(env, s, d, c))
  {
  }

  lemma BookOk(env: Env, s: Shared, d: Driver, c: Choice)
    requires d.pc.Pausing? || d.pc.Recording?
    ensures PlanOk(env, s, d, PlanFor(env, s, d, c))
  {
  }

  lemma WalkOk(env: Env, s: Shared, d: Driver, c: Choice)
    requires d.pc.Top? || d.pc.Advancing? || d.pc.Failing?
    ensures PlanOk(env, s, d, PlanFor(env, s, d, c))
  {
  }

  lemma NewLegit(env: Env, s: Shared, d: Driver, p: Plan, i: nat)
    requires PlanOk(env, s, d, p) && i < |p.acts|
    ensures Legit(env, TablesAfter(s.tables, d, p).approvals, s.log + p.acts, |s.log| + i)
  {
    var log', x, at := s.log + p.acts, p.acts[i], |s.log| + i;
    assert log'[at] == x;
    assert NewOk(env, s, TablesAfter(s.tables, d, p).approvals, p.acts, i);
    match x
    case Granted(_, _, _, n) =>
      if i == 0 {
        LastGrows(s.log, log', |s.log|, n);
      } else {
        assert log'[|s.log|] == Resolved(n, true);
      }
    case Posted(_, _, _, _, _, _, _, _, _) =>
      var allow := Decided(x.who, x.run, x.step, x.caller, x.tool, x.args, x.ctx, Allow);
      if allow in s.log {
        EarlierIn(s.log, log', at, allow);
      } else {
        EarlierIn(s.log, log', at, Decided(x.who, x.run, x.step, ByNode, x.tool, x.args, x.ctx, RequireApproval));
        var n :| Granted(x.who, x.run, x.step, n) in s.log;
        EarlierIn(s.log, log', at, Granted(x.who, x.run, x.step, n));
      }
    case _ =>
  }

  lemma TablesKeepApprovals(t: Tables, d: Driver, p: Plan)
    ensures ApprovalsKept(t.approvals, TablesAfter(t, d, p).approvals)
  {
  }

  lemma ExplainedGrows(s: Shared, s': Shared)
    requires s.log <= s'.log && s'.entries == s.entries && EntriesExplained(s.entries, s.log)
    ensures EntriesExplained(s'.entries, s'.log)
  {
    forall k | k in s.entries ensures EntryExplained(s'.log, k, s.entries[k]) {
      var i :| 0 <= i < |s.log| && s.log[i].Posted? && s.log[i].key == k && s.log[i].value == s.entries[k];
      assert s'.log[i] == s.log[i];
    }
  }

  lemma RowsStayExplained(env: Env, s: Shared, d: Driver, p: Plan)
    requires RowsExplained(s.tables.approvals, s.log) && PlanOk(env, s, d, p)
    ensures RowsExplained(TablesAfter(s.tables, d, p).approvals, s.log + p.acts)
  {
    var a', log' := TablesAfter(s.tables, d, p).approvals, s.log + p.acts;
    forall a | 0 <= a < |a'| && a'[a].status == Approved ensures LastApproved(log', |log'|, a) {
      if p.op.SettleApproval? && p.op.approval == a && p.op.granted {
        assert log'[|s.log|] == Resolved(a, true);
        assert forall k :: |s.log| < k < |log'| ==> log'[k] == p.acts[k - |s.log|];
      } else {
        StatusKept(s.tables, d, p, a);
        assert p.op.SettleApproval? ==> p.op.approval != a;
        LastStands(s.log, p.acts, a);
      }
    }
  }

  /** Only a settled decision makes a row approved, or changes an approved one. */
  lemma StatusKept(t: Tables, d: Driver, p: Plan, a: nat)
    requires a < |TablesAfter(t, d, p).approvals| && TablesAfter(t, d, p).approvals[a].status == Approved
    requires !(p.op.SettleApproval? && p.op.approval == a && p.op.granted)
    ensures a < |t.approvals| && t.approvals[a].status == Approved
    ensures p.op.SettleApproval? && p.op.approval == a ==> ResolveApproval(t, d.run.info.tenant, a, false).None?
  {
  }

  lemma PerformOk(env: Env, s: Shared, d: Driver, p: Plan)
    requires SharedInv(env, s) && PlanOk(env, s, d, p)
    ensures var t := Perform(s, d, p); SharedInv(env, t.s) && (t.o.Live? ==> DriverInv(env, t.s, t.o.d))
  {
    var t := Perform(s, d, p);
    TablesKeepApprovals(s.tables, d, p);
    RowsStayExplained(env, s, d, p);
    ExplainedGrows(s, t.s);
    forall i | 0 <= i < |t.s.log| ensures Legit(env, t.s.tables.approvals, t.s.log, i) {
      if i < |s.log| {
        LegitGrows(env, s.tables.approvals, t.s.tables.approvals, s.log, t.s.log, i);
      } else {
        NewLegit(env, s, d, p, i - |s.log|);
      }
    }
  }

  // ---- every action, every run -------------------------------------------------------

  lemma OthersKept(env: Env, w: World, s': Shared)
    requires Inv(env, w) && ApprovalsKept(w.s.tables.approvals, s'.tables.approvals) && w.s.log <= s'.log
    ensures forall i :: i in w.drivers ==> DriverInv(env, s', w.drivers[i])
  {
    forall i | i in w.drivers ensures DriverInv(env, s', w.drivers[i]) {
      CarriesGrows(env, w.s, s', w.drivers[i]);
    }
  }

  lemma DriveInv(env: Env, w: World, a: Action)
    requires Inv(env, w)
    ensures a.Drive? ==> Inv(env, Next(env, w, a))
  {
    if a.Drive? && a.d in w.drivers {
      var d := w.drivers[a.d];
      PlanFine(env, w.s, d, a.c);
      PerformOk(env, w.s, d, PlanFor(env, w.s, d, a.c));
      TablesKeepApprovals(w.s.tables, d, PlanFor(env, w.s, d, a.c));
      OthersKept(env, w, DriverStep(env, w.s, d, a.c).s);
    }
  }

  lemma LandInv(env: Env, w: World, a: Action)
    requires Inv(env, w)
    ensures a.Arrive? ==> Inv(env, Next(env, w, a))
  {
    if a.Arrive? {
      var s' := Land(w.s, a.i);
      forall k | k in s'.entries ensures EntryExplained(s'.log, k, s'.entries[k]) {
        if k in w.s.entries {
          assert EntryExplained(w.s.log, k, w.s.entries[k]);
        }
      }
      OthersKept(env, w, s');
    }
  }

  lemma ResolveInv(env: Env, w: World, a: Action)
    requires Inv(env, w)
    ensures a.Resolve? ==> Inv(env, Next(env, w, a))
  {
    if a.Resolve? && ResolveApproval(w.s.tables, a.tenant, a.approval, a.approved).Some? {
      var s' := Next(env, w, a).s;
      OthersKept(env, w, s');
      ExplainedGrows(w.s, s');
      assert s'.log[|w.s.log|] == Resolved(a.approval, a.approved);
      forall i | 0 <= i < |s'.log| ensures Legit(env, s'.tables.approvals, s'.log, i) {
        if i < |w.s.log| {
          LegitGrows(env, w.s.tables.approvals, s'.tables.approvals, w.s.log, s'.log, i);
        }
      }
      assert forall x :: x in w.s.log ==> x in s'.log;
    }
  }

  lemma OtherInv(env: Env, w: World, a: Action)
    requires Inv(env, w)
    ensures !a.Drive? && !a.Arrive? && !a.Resolve? ==> Inv(env, Next(env, w, a))
  {
  }

  lemma {:induction false} ExecInv(env: Env, w: World, acts: seq<Action>)
    requires Inv(env, w)
    ensures Inv(env, Exec(env, w, acts))
    decreases acts
  {
    if acts != [] {
      DriveInv(env, w, acts[0]);
      LandInv(env, w, acts[0]);
      ResolveInv(env, w, acts[0]);
      OtherInv(env, w, acts[0]);
      ExecInv(env, Next(env, w, acts[0]), acts[1..]);
    }
  }

  // ---- the theorems --------------------------------------------------------------------

  /** A row for this run and step, whose last decision before position `g` is that
      it is approved, was seen as granted by the driver at `g`, before `i`. */
  ghost predicate HumanGranted(s: Shared, i: nat, p: Act)
    requires p.Posted?
  {
    exists a, g :: 0 <= g < i <= |s.log| && s.log[g] == Granted(p.who, p.run, p.step, a)
                   && RowFor(s.tables.approvals, a, p.run, p.step) && LastApproved(s.log, g, a)
  }

  /** In every reachable state, every posted operation (workflow nodes,
      compensations, crash replays and agents' calls alike) came after a gate
      decision on exactly its arguments: ALLOW, or, for a workflow node only,
      REQUIRE_APPROVAL and a granted approval for that run and step. */
  lemma Authorized(env: Env, acts: seq<Action>, i: nat)
    requires i < |Exec(env, INIT, acts).s.log| && Exec(env, INIT, acts).s.log[i].Posted?
    ensures var s := Exec(env, INIT, acts).s; var p := s.log[i];
            || (&& TrueDecision(env, p.tool, p.caller, p.args, p.ctx, Allow)
                && Earlier(s.log, i, Decided(p.who, p.run, p.step, p.caller, p.tool, p.args, p.ctx, Allow)))
            || (&& p.caller == ByNode
                && TrueDecision(env, p.tool, ByNode, p.args, p.ctx, RequireApproval)
                && Earlier(s.log, i, Decided(p.who, p.run, p.step, ByNode, p.tool, p.args, p.ctx, RequireApproval))
                && HumanGranted(s, i, p))
  {
    ExecInv(env, INIT, acts);
    var s := Exec(env, INIT, acts).s;
    var p := s.log[i];
    assert Legit(env, s.tables.approvals, s.log, i);
    var allow := Decided(p.who, p.run, p.step, p.caller, p.tool, p.args, p.ctx, Allow);
    if Earlier(s.log, i, allow) {
      var j :| 0 <= j < i && s.log[j] == allow;
      assert Legit(env, s.tables.approvals, s.log, j);
    } else {
      var ask := Decided(p.who, p.run, p.step, ByNode, p.tool, p.args, p.ctx, RequireApproval);
      var j :| 0 <= j < i && s.log[j] == ask;
      assert Legit(env, s.tables.approvals, s.log, j);
      var a :| Earlier(s.log, i, Granted(p.who, p.run, p.step, a));
      var g :| 0 <= g < i && s.log[g] == Granted(p.who, p.run, p.step, a);
      assert Legit(env, s.tables.approvals, s.log, g);
    }
  }

  /** The reference deployment: default rules, and `create_ap_entry` as the only
      mutating tool. */
  ghost predicate Reference(env: Env, parse: string -> Option<real>) {
    && (forall q :: env.gate(q) == P.Check(P.DefaultRules(parse), q).effect)
    && (forall t :: t in env.tools && env.tools[t].sideEffect ==> t == P.AP_ENTRY)
    && (forall args :: P.AP_ENTRY in env.tools ==> env.tools[P.AP_ENTRY].post(args) == ApEntry(args))
  }

  ghost predicate Over5000(parse: string -> Option<real>, v: Json) {
    && v.Obj? && "amount" in v.fields
    && P.FloatOf(parse, v.fields["amount"]).Some? && P.FloatOf(parse, v.fields["amount"]).value > 5000.0
  }

  /** A decision that lets an entry over 5000 through is always a referral. */
  lemma LargeNeedsApproval(env: Env, parse: string -> Option<real>, p: Act)
    requires Reference(env, parse) && p.Posted? && TrueOperation(env, p) && Over5000(parse, p.value)
    ensures !TrueDecision(env, p.tool, p.caller, p.args, p.ctx, Allow)
  {
    var args := CallArgs(p.run, p.step, p.caller, p.tool, p.args);
    var tool := env.tools[p.tool].(name := p.tool);
    assert p.value == ApEntry(args);
    assert Get(args, "amount") == Get(p.args, "amount");
    forall a: Agent ensures Gate(env, a, tool, p.args, p.ctx) != Allow {
      if P.AP_ENTRY in a.tools {
        P.DefaultGate(parse, P.Request(a, tool, p.args, p.ctx));
      }
    }
  }

  /** Under the reference policies no accounts-payable entry over 5000 exists in
      the external system unless a human granted an approval for the run and
      step that posted it, before it was posted. */
  lemma LargeEntriesApproved(env: Env, parse: string -> Option<real>, acts: seq<Action>, k: Json)
    requires Reference(env, parse)
    requires k in Exec(env, INIT, acts).s.entries && Over5000(parse, Exec(env, INIT, acts).s.entries[k])
    ensures var s := Exec(env, INIT, acts).s;
            exists i :: 0 <= i < |s.log| && s.log[i].Posted? && s.log[i].key == k && s.log[i].caller == ByNode
                        && HumanGranted(s, i, s.log[i])
  {
    ExecInv(env, INIT, acts);
    var s := Exec(env, INIT, acts).s;
    assert EntryExplained(s.log, k, s.entries[k]);
    var i :| 0 <= i < |s.log| && s.log[i].Posted? && s.log[i].key == k && s.log[i].value == s.entries[k];
    assert Legit(env, s.tables.approvals, s.log, i);
    LargeNeedsApproval(env, parse, s.log[i]);
    Authorized(env, acts, i);
  }
}
