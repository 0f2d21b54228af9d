/** Exactly-once side effects and agreement, over every interleaving of any
    number of drivers, crashes, retries and operations that land late. */
module ExactlyOnce {
  import opened Core
  import opened StoreSpec
  import opened Machine

  /** Step `s` of workflow `wf` is a tool node with a side effect. */
  ghost predicate Mutating(env: Env, wf: Id, s: Id) {
    var n := StepOf(env, wf, s).node;
    n.ToolNode? && n.tool in env.tools && env.tools[n.tool].sideEffect
  }

  ghost function NodeKey(env: Env, wf: Id, run: Id, s: Id): Json
    requires Mutating(env, wf, s)
  {
    Str(EffectKey(run, s, StepOf(env, wf, s).node.tool))
  }

  /** Every result a context keeps for such a step is the external entry. */
  ghost predicate Agrees(env: Env, wf: Id, run: Id, ctx: Dict, entries: map<Json, Json>) {
    forall s :: s in ctx && Mutating(env, wf, s) ==>
      NodeKey(env, wf, run, s) in entries && ctx[s] == entries[NodeKey(env, wf, run, s)]
  }

  ghost predicate RowsAgree(env: Env, runs: map<Id, Run>, entries: map<Json, Json>) {
    forall r :: r in runs ==> runs[r].info.id == r && Agrees(env, runs[r].info.workflow, r, runs[r].context, entries)
  }

  /** Every ledger row is the external entry of its key. */
  ghost predicate LedgerAgrees(effects: map<string, EffectRow>, entries: map<Json, Json>) {
    forall k :: k in effects ==> Str(k) in entries && effects[k].result == entries[Str(k)]
  }

  ghost predicate Stored(runs: map<Id, Run>, run: Run) {
    run.info.id in runs && runs[run.info.id].info == run.info
  }

  ghost predicate FitsPurpose(env: Env, wf: Id, step: Id, p: Purpose) {
    p.ForCall? ==> StepOf(env, wf, step).node == ToolNode(p.tool)
  }

  /** The program point fits the node it is in. */
  ghost predicate Fits(env: Env, wf: Id, pc: Pc) {
    match pc
    case Think(f, _, _, _) => StepOf(env, wf, f.step).node.AgentNode?
    case Calls(f, _, _, _, _) => StepOf(env, wf, f.step).node.AgentNode?
    case Calling(f, _, _, _, _, _) => StepOf(env, wf, f.step).node.AgentNode?
    case Asking(f, p) => FitsPurpose(env, wf, f.step, p)
    case Requesting(f, p) => FitsPurpose(env, wf, f.step, p)
    case Answering(f, p, _) => FitsPurpose(env, wf, f.step, p)
    case Executing(f, tool, _, _) => StepOf(env, wf, f.step).node == ToolNode(tool)
    case Recording(f, tool, _) => StepOf(env, wf, f.step).node == ToolNode(tool)
    case _ => true
  }

  /** A driver about to record the effect of a mutating node holds its entry. */
  ghost predicate HoldsEntry(env: Env, wf: Id, run: Id, pc: Pc, entries: map<Json, Json>) {
    pc.Recording? && Mutating(env, wf, pc.f.step) ==>
      var k := Str(EffectKey(run, pc.f.step, pc.tool));
      k in entries && pc.result == entries[k]
  }

  ghost predicate DriverInv(env: Env, runs: map<Id, Run>, entries: map<Json, Json>, d: Driver) {
    && Stored(runs, d.run)
    && Fits(env, d.run.info.workflow, d.pc)
    && Agrees(env, d.run.info.workflow, d.run.info.id, d.run.context, entries)
    && HoldsEntry(env, d.run.info.workflow, d.run.info.id, d.pc, entries)
  }

  ghost predicate SharedInv(env: Env, t: Tables, entries: map<Json, Json>) {
    RowsAgree(env, t.runs, entries) && LedgerAgrees(t.effects, entries)
  }

  ghost predicate Inv(env: Env, w: World) {
    && SharedInv(env, w.s.tables, w.s.entries)
    && forall i :: i in w.drivers ==> DriverInv(env, w.s.tables.runs, w.s.entries, w.drivers[i])
  }

  /** What other drivers rely on. */
  ghost predicate RunsKept(runs: map<Id, Run>, runs': map<Id, Run>) {
    forall r :: r in runs ==> r in runs' && runs'[r].info == runs[r].info
  }

  ghost predicate EntriesKept(entries: map<Json, Json>, entries': map<Json, Json>) {
    forall k :: k in entries ==> k in entries' && entries'[k] == entries[k]
  }

  lemma KeptDriver(env: Env, s: Shared, s': Shared, d: Driver)
    requires RunsKept(s.tables.runs, s'.tables.runs) && EntriesKept(s.entries, s'.entries)
    requires DriverInv(env, s.tables.runs, s.entries, d)
    ensures DriverInv(env, s'.tables.runs, s'.entries, d)
  {
  }

  // ---- one driver step --------------------------------------------------------

  ghost predicate SafeKeep(env: Env, info: RunInfo, keep: Option<(Id, Json)>, entries: map<Json, Json>) {
    keep.Some? && Mutating(env, info.workflow, keep.value.0) ==>
      var k := NodeKey(env, info.workflow, info.id, keep.value.0);
      k in entries && keep.value.1 == entries[k]
  }

  ghost predicate SafeRecord(info: RunInfo, op: TableOp, entries: map<Json, Json>) {
    op.Record? ==>
      var k := Str(EffectKey(info.id, op.step, op.tool));
      k in entries && op.result == entries[k]
  }

  ghost predicate SafeGoal(env: Env, info: RunInfo, goal: Goal, entries: map<Json, Json>) {
    goal.Goto? ==> Fits(env, info.workflow, goal.pc) && HoldsEntry(env, info.workflow, info.id, goal.pc, entries)
  }

  ghost predicate Safe(env: Env, info: RunInfo, p: Plan, entries: map<Json, Json>) {
    SafeKeep(env, info, p.keep, entries) && SafeRecord(info, p.op, entries) && SafeGoal(env, info, p.goal, entries)
  }

  lemma OpKeyKeyed(run: Id, step: Id, tool: string, args: Dict)
    ensures OpKey(KeyedArgs(run, step, tool, args)) == Str(EffectKey(run, step, tool))
  {
    assert |EffectKey(run, step, tool)| >= 2;
  }

  lemma ReadySafe(env: Env, s: Shared, d: Driver, f: Frame)
    requires LedgerAgrees(s.tables.effects, s.entries)
    ensures Safe(env, d.run.info, PlanReady(env, s, d, f), s.entries)
  {
    var node := StepOf(env, d.run.info.workflow, f.step).node;
    if node.ToolNode? { ToolSafe(env, s, d, f, node.tool); }
  }

  lemma ToolSafe(env: Env, s: Shared, d: Driver, f: Frame, name: string)
    requires LedgerAgrees(s.tables.effects, s.entries)
    requires StepOf(env, d.run.info.workflow, f.step).node == ToolNode(name)
    ensures Safe(env, d.run.info, PlanTool(env, s, d, f, name), s.entries)
  {
    var args := StepOf(env, d.run.info.workflow, f.step).args(d.run.context);
    if name in env.tools && args.Some? {
      GateSafe(env, s, d, f, env.tools[name].(name := name), args.value);
    }
  }

  lemma GateSafe(env: Env, s: Shared, d: Driver, f: Frame, tool: Tool, args: Dict)
    requires StepOf(env, d.run.info.workflow, f.step).node == ToolNode(tool.name)
    ensures Safe(env, d.run.info, PlanGate(env, d, f, tool, args), s.entries)
  {
  }

  lemma ExecutingSafe(env: Env, s: Shared, d: Driver, c: Choice)
    requires d.pc.Executing? && Fits(env, d.run.info.workflow, d.pc)
    ensures Safe(env, d.run.info, PlanExecuting(env, s, d, d.pc, c), s.entries)
  {
    OpKeyKeyed(d.run.info.id, d.pc.f.step, d.pc.tool, d.pc.args);
  }

  lemma ApprovalSafe(env: Env, s: Shared, d: Driver, c: Choice)
    requires Fits(env, d.run.info.workflow, d.pc)
    requires d.pc.Asking? || d.pc.Answering? || d.pc.Requesting? || d.pc.Pausing?
    ensures Safe(env, d.run.info, PlanFor(env, s, d, c), s.entries)
  {
    if d.pc.Answering? { AnsweringSafe(env, s, d, c); }
  }

  lemma AnsweringSafe(env: Env, s: Shared, d: Driver, c: Choice)
    requires Fits(env, d.run.info.workflow, d.pc) && d.pc.Answering?
    ensures Safe(env, d.run.info, PlanFor(env, s, d, c), s.entries)
  {
  }

  lemma AgentSafe(env: Env, s: Shared, d: Driver, c: Choice)
    requires Fits(env, d.run.info.workflow, d.pc)
    requires d.pc.Think? || d.pc.Calls? || d.pc.Calling?
    ensures Safe(env, d.run.info, PlanFor(env, s, d, c), s.entries)
  {
  }

  lemma PlanSafe(env: Env, s: Shared, d: Driver, c: Choice)
    requires LedgerAgrees(s.tables.effects, s.entries)
    requires Fits(env, d.run.info.workflow, d.pc)
    requires HoldsEntry(env, d.run.info.workflow, d.run.info.id, d.pc, s.entries)
    ensures Safe(env, d.run.info, PlanFor(env, s, d, c), s.entries)
  {
    if d.pc.Ready? { ReadySafe(env, s, d, d.pc.f); }
    else if d.pc.Executing? { ExecutingSafe(env, s, d, c); }
    else if d.pc.Asking? || d.pc.Answering? || d.pc.Requesting? || d.pc.Pausing? { ApprovalSafe(env, s, d, c); }
    else if d.pc.Think? || d.pc.Calls? || d.pc.Calling? { AgentSafe(env, s, d, c); }
  }

  /** Committing a run whose context agrees keeps the stored rows agreeing. */
  lemma CommitSafe(env: Env, t: Tables, entries: map<Json, Json>, run: Run, events: seq<Event>)
    requires RowsAgree(env, t.runs, entries) && Stored(t.runs, run)
    requires Agrees(env, run.info.workflow, run.info.id, run.context, entries)
    ensures var t' := OrElse(Checkpoint(t, run, events), t);
            t'.effects == t.effects && RunsKept(t.runs, t'.runs) && RowsAgree(env, t'.runs, entries)
  {
  }

  lemma RecordSafe(t: Tables, entries: map<Json, Json>, d: Driver, p: Plan)
    requires LedgerAgrees(t.effects, entries) && SafeRecord(d.run.info, p.op, entries)
    ensures LedgerAgrees(TablesAfter(t, d, p).effects, entries)
    ensures !p.op.Commit? ==> TablesAfter(t, d, p).runs == t.runs
  {
  }

  lemma PerformSafe(env: Env, s: Shared, d: Driver, p: Plan)
    requires SharedInv(env, s.tables, s.entries) && DriverInv(env, s.tables.runs, s.entries, d)
    requires Safe(env, d.run.info, p, s.entries)
    ensures var t := Perform(s, d, p);
            && RunsKept(s.tables.runs, t.s.tables.runs)
            && SharedInv(env, t.s.tables, t.s.entries)
            && (t.o.Live? ==> DriverInv(env, t.s.tables.runs, t.s.entries, t.o.d))
  {
    assert Agrees(env, d.run.info.workflow, d.run.info.id, RunAfter(d, p).context, s.entries);
    CommitSafe(env, s.tables, s.entries, RunAfter(d, p), d.buffer + p.events);
    RecordSafe(s.tables, s.entries, d, p);
  }

  // ---- every action, every run --------------------------------------------------

  lemma OthersKept(env: Env, w: World, s': Shared)
    requires Inv(env, w)
    requires RunsKept(w.s.tables.runs, s'.tables.runs) && EntriesKept(w.s.entries, s'.entries)
    ensures forall i :: i in w.drivers ==> DriverInv(env, s'.tables.runs, s'.entries, w.drivers[i])
  {
    forall i | i in w.drivers ensures DriverInv(env, s'.tables.runs, s'.entries, w.drivers[i]) {
      KeptDriver(env, w.s, s', w.drivers[i]);
    }
  }

  lemma DriveInv(env: Env, w: World, a: Action)
    requires Inv(env, w)
    ensures a.Drive? ==> Inv(env, Next(env, w, a)) && EntriesKept(w.s.entries, Next(env, w, a).s.entries)
  {
    if a.Drive? && a.d in w.drivers {
      var d := w.drivers[a.d];
      PlanSafe(env, w.s, d, a.c);
      PerformSafe(env, w.s, d, PlanFor(env, w.s, d, a.c));
      OthersKept(env, w, DriverStep(env, w.s, d, a.c).s);
    }
  }

  lemma FireInv(env: Env, w: World, a: Action)
    requires Inv(env, w)
    ensures a.Fire? || a.Start? ==>
      Inv(env, Next(env, w, a)) && EntriesKept(w.s.entries, Next(env, w, a).s.entries)
  {
    if a.Fire? || a.Start? {
      OthersKept(env, w, Next(env, w, a).s);
    }
  }

  lemma CancelInv(env: Env, w: World, a: Action)
    requires Inv(env, w)
    ensures a.Cancel? ==> Inv(env, Next(env, w, a)) && EntriesKept(w.s.entries, Next(env, w, a).s.entries)
  {
    if a.Cancel? {
      OthersKept(env, w, Next(env, w, a).s);
    }
  }

  lemma OutsideInv(env: Env, w: World, a: Action)
    requires Inv(env, w)
    ensures !a.Drive? && !a.Fire? && !a.Start? && !a.Cancel? ==>
      Inv(env, Next(env, w, a)) && EntriesKept(w.s.entries, Next(env, w, a).s.entries)
  {
    if a.Arrive? || a.Resolve? || a.PurgePayloads? {
      OthersKept(env, w, Next(env, w, a).s);
    }
  }

  lemma {:induction false} ExecInv(env: Env, w: World, acts: seq<Action>)
    requires Inv(env, w)
    ensures Inv(env, Exec(env, w, acts)) && EntriesKept(w.s.entries, Exec(env, w, acts).s.entries)
    decreases acts
  {
    if acts != [] {
      DriveInv(env, w, acts[0]);
      FireInv(env, w, acts[0]);
      CancelInv(env, w, acts[0]);
      OutsideInv(env, w, acts[0]);
      ExecInv(env, Next(env, w, acts[0]), acts[1..]);
    }
  }

  // ---- the theorems -------------------------------------------------------------

  /** In every state the system can reach, every ledger row and every committed
      context value of a mutating tool node is the one external entry of its
      key; and no entry is ever changed or removed afterwards. */
  lemma Agreement(env: Env, acts: seq<Action>, more: seq<Action>)
    ensures var s := Exec(env, INIT, acts).s;
            var s' := Exec(env, Exec(env, INIT, acts), more).s;
            && LedgerAgrees(s.tables.effects, s.entries)
            && RowsAgree(env, s.tables.runs, s.entries)
            && EntriesKept(s.entries, s'.entries)
  {
    ExecInv(env, INIT, acts);
    ExecInv(env, Exec(env, INIT, acts), more);
  }

  // ---- a recorded effect is never executed again ----------------------------------

  /** A call of a mutating tool whose ledger key is `key`. */
  ghost predicate Targets(env: Env, run: Id, step: Id, tool: string, key: string) {
    tool in env.tools && env.tools[tool].sideEffect && EffectKey(run, step, tool) == key
  }

  /** The driver has looked at the ledger for this key and may still act. */
  ghost predicate PastLedger(env: Env, run: Id, pc: Pc, key: string) {
    match pc
    case Asking(f, p) => p.ForCall? && Targets(env, run, f.step, p.tool, key)
    case Requesting(f, p) => p.ForCall? && Targets(env, run, f.step, p.tool, key)
    case Answering(f, p, _) => p.ForCall? && Targets(env, run, f.step, p.tool, key)
    case Executing(f, tool, _, _) => Targets(env, run, f.step, tool, key)
    case _ => false
  }

  ghost predicate PostsFor(a: Act, key: string) {
    a.Posted? && a.caller == ByNode && EffectKey(a.run, a.step, a.tool) == key
  }

  ghost predicate Recorded(t: Tables, key: string) {
    key in t.effects && t.effects[key].result != Null
  }

  /** A non-null row is in the ledger, and only drivers in `early` are already
      past their look at it. */
  ghost predicate Sealed(env: Env, w: World, key: string, early: set<nat>) {
    && Recorded(w.s.tables, key)
    && forall i :: i in w.drivers ==>
         w.drivers[i].id == i && (PastLedger(env, w.drivers[i].run.info.id, w.drivers[i].pc, key) ==> i in early)
  }

  /** `log'` continues `log`, and no workflow node but one run by a driver in
      `early` posts for `key` in between. */
  ghost predicate Quiet(log: seq<Act>, log': seq<Act>, key: string, early: set<nat>) {
    log <= log' && forall i :: |log| <= i < |log'| && PostsFor(log'[i], key) ==> log'[i].who in early
  }

  /** A driver posts in its own name. */
  ghost predicate Signed(d: Driver, p: Plan) {
    forall i :: 0 <= i < |p.acts| && p.acts[i].Posted? ==> p.acts[i].who == d.id
  }

  lemma ReadySigned(env: Env, s: Shared, d: Driver, f: Frame)
    ensures Signed(d, PlanReady(env, s, d, f))
  {
  }

  lemma ApprovalSigned(env: Env, s: Shared, d: Driver, c: Choice)
    requires d.pc.Asking? || d.pc.Answering? || d.pc.Requesting? || d.pc.Pausing?
    ensures Signed(d, PlanFor(env, s, d, c))
  {
  }

  lemma PlanSigned(env: Env, s: Shared, d: Driver, c: Choice)
    ensures Signed(d, PlanFor(env, s, d, c))
  {
    if d.pc.Ready? { ReadySigned(env, s, d, d.pc.f); }
    else if d.pc.Asking? || d.pc.Answering? || d.pc.Requesting? || d.pc.Pausing? { ApprovalSigned(env, s, d, c); }
  }

  /** The plan neither posts for the key nor gets past its ledger read. */
  ghost predicate Leaves(env: Env, run: Id, p: Plan, key: string) {
    && (p.goal.Goto? ==> !PastLedger(env, run, p.goal.pc, key))
    && (forall i :: 0 <= i < |p.acts| ==> !PostsFor(p.acts[i], key))
  }

  lemma SealedReady(env: Env, s: Shared, d: Driver, f: Frame, key: string)
    requires Recorded(s.tables, key)
    ensures Leaves(env, d.run.info.id, PlanReady(env, s, d, f), key)
  {
    var node := StepOf(env, d.run.info.workflow, f.step).node;
    if node.ToolNode? { SealedTool(env, s, d, f, node.tool, key); }
  }

  lemma SealedTool(env: Env, s: Shared, d: Driver, f: Frame, tool: string, key: string)
    requires Recorded(s.tables, key)
    ensures Leaves(env, d.run.info.id, PlanTool(env, s, d, f, tool), key)
  {
  }

  lemma SealedAgent(env: Env, s: Shared, d: Driver, c: Choice, key: string)
    requires d.pc.Think? || d.pc.Calls? || d.pc.Calling?
    ensures Leaves(env, d.run.info.id, PlanFor(env, s, d, c), key)
  {
  }

  lemma SealedApproval(env: Env, s: Shared, d: Driver, c: Choice, key: string)
    requires d.pc.Asking? || d.pc.Answering? || d.pc.Requesting? || d.pc.Pausing?
    requires !PastLedger(env, d.run.info.id, d.pc, key)
    ensures Leaves(env, d.run.info.id, PlanFor(env, s, d, c), key)
  {
    if d.pc.Asking? { SealedAsking(env, s, d, c, key); }
    else if d.pc.Answering? { SealedAnswering(env, s, d, c, key); }
    else { SealedPause(env, s, d, c, key); }
  }

  lemma SealedAsking(env: Env, s: Shared, d: Driver, c: Choice, key: string)
    requires d.pc.Asking? && !PastLedger(env, d.run.info.id, d.pc, key)
    ensures Leaves(env, d.run.info.id, PlanFor(env, s, d, c), key)
  {
  }

  lemma SealedAnswering(env: Env, s: Shared, d: Driver, c: Choice, key: string)
    requires d.pc.Answering? && !PastLedger(env, d.run.info.id, d.pc, key)
    ensures Leaves(env, d.run.info.id, PlanFor(env, s, d, c), key)
  {
  }

  lemma SealedPause(env: Env, s: Shared, d: Driver, c: Choice, key: string)
    requires d.pc.Requesting? || d.pc.Pausing?
    ensures Leaves(env, d.run.info.id, PlanFor(env, s, d, c), key)
  {
  }

  lemma SealedPlan(env: Env, s: Shared, d: Driver, c: Choice, key: string)
    requires Recorded(s.tables, key) && !PastLedger(env, d.run.info.id, d.pc, key)
    ensures Leaves(env, d.run.info.id, PlanFor(env, s, d, c), key)
  {
    if d.pc.Ready? { SealedReady(env, s, d, d.pc.f, key); }
    else if d.pc.Asking? || d.pc.Answering? || d.pc.Requesting? || d.pc.Pausing? { SealedApproval(env, s, d, c, key); }
    else if d.pc.Think? || d.pc.Calls? || d.pc.Calling? { SealedAgent(env, s, d, c, key); }
  }

  lemma SealedDrive(env: Env, w: World, a: Action, key: string, early: set<nat>)
    requires Sealed(env, w, key, early) && a.Drive?
    ensures Sealed(env, Next(env, w, a), key, early) && Quiet(w.s.log, Next(env, w, a).s.log, key, early)
  {
    if a.d in w.drivers {
      PlanSigned(env, w.s, w.drivers[a.d], a.c);
      if a.d !in early { SealedPlan(env, w.s, w.drivers[a.d], a.c, key); }
    }
  }

  lemma SealedNext(env: Env, w: World, a: Action, key: string, early: set<nat>)
    requires Sealed(env, w, key, early)
    ensures Sealed(env, Next(env, w, a), key, early) && Quiet(w.s.log, Next(env, w, a).s.log, key, early)
  {
    if a.Drive? { SealedDrive(env, w, a, key, early); }
  }

  lemma {:induction false} SealedExec(env: Env, w: World, acts: seq<Action>, key: string, early: set<nat>)
    requires Sealed(env, w, key, early)
    ensures Sealed(env, Exec(env, w, acts), key, early)
    ensures Quiet(w.s.log, Exec(env, w, acts).s.log, key, early)
    decreases acts
  {
    if acts != [] {
      SealedNext(env, w, acts[0], key, early);
      SealedExec(env, Next(env, w, acts[0]), acts[1..], key, early);
    }
  }

  ghost predicate Numbered(w: World) {
    forall i :: i in w.drivers ==> w.drivers[i].id == i
  }

  lemma {:induction false} AlwaysNumbered(env: Env, w: World, acts: seq<Action>)
    requires Numbered(w)
    ensures Numbered(Exec(env, w, acts))
    decreases acts
  {
    if acts != [] { AlwaysNumbered(env, Next(env, w, acts[0]), acts[1..]); }
  }

  /** The drivers that have looked at the ledger for this key and may still act. */
  ghost function Early(env: Env, w: World, key: string): set<nat> {
    set i | i in w.drivers && PastLedger(env, w.drivers[i].run.info.id, w.drivers[i].pc, key)
  }

  /** In any reachable state with a non-null row committed for a key: whatever
      posts for that key afterwards, in any future of the system, is a driver that
      had looked at the ledger before; one that looks at it later never calls the
      operation again. */
  lemma LedgerSeals(env: Env, acts: seq<Action>, more: seq<Action>, key: string)
    requires Recorded(Exec(env, INIT, acts).s.tables, key)
    ensures var w := Exec(env, INIT, acts);
            Quiet(w.s.log, Exec(env, w, more).s.log, key, Early(env, w, key))
  {
    AlwaysNumbered(env, INIT, acts);
    SealedExec(env, Exec(env, INIT, acts), more, key, Early(env, Exec(env, INIT, acts), key));
  }
}
