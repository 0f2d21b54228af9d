/** Crash equivalence: with deterministic agents, read-only tools, connector
    faults and approval callbacks, a run that succeeds without crashes succeeds
    under every schedule of crashes, with the same outcome. */
module CrashEquivalence {
  import opened Core
  import opened StoreSpec
  import opened Machine
  import EO = ExactlyOnce
  import SD = SingleDriver

  // ---- the deterministic system -----------------------------------------------------------

  /** Where in a run an answer is asked for: in which attempt of which step, for
      which turn and call of an agent, at which step entry and in which context. */
  datatype When = When(f: Frame, turn: nat, call: nat, entry: nat, ctx: Dict)

  /** What the surroundings answer, as functions of where in the run they are
      asked; so every visit of a step, every attempt and every call may get an
      answer of its own. An operation that faults may have been applied. */
  datatype Det = Det(
    respond: (When, string, Dict, seq<CallResult>) -> Response,
    read: (When, string, Dict) -> Json,
    faulty: (When, string, Dict) -> bool,
    approve: (When, Purpose) -> bool)

  function Outcome(det: Det, w: When, tool: string, args: Dict, invoked: bool): Choice {
    if !invoked then Invoke
    else if det.faulty(w, tool, args) then FailCall
    else Return(det.read(w, tool, args))
  }

  function Oracle(env: Env, det: Det, d: Driver): Choice {
    match d.pc
    case Think(f, i, task, scratch) =>
      Respond(det.respond(When(f, i, 0, d.run.steps, d.run.context), AgentOf(env, d.run.info.workflow, f).name, task, scratch))
    case Calling(f, i, _, calls, done, invoked) =>
      if calls == [] then Proceed
      else Outcome(det, When(f, i, |done|, d.run.steps, d.run.context), calls[0].tool, calls[0].args, invoked)
    case Executing(f, tool, args, invoked) => Outcome(det, When(f, 0, 0, d.run.steps, d.run.context), tool, args, invoked)
    case Answering(f, p, _) => Answer(det.approve(When(f, 0, 0, d.run.steps, d.run.context), p))
    case _ => Proceed
  }

  /** One step of a live driver; a posted operation is applied at once. */
  function Tick(env: Env, det: Det, t: Turn): Turn
    requires t.o.Live?
  {
    var c := Oracle(env, det, t.o.d);
    var t1 := DriverStep(env, t.s, t.o.d, c);
    if c.Invoke? then t1.(s := Land(t1.s, |t.s.log|)) else t1
  }

  function Ticks(env: Env, det: Det, t: Turn, n: nat): Turn
    decreases n
  {
    if n == 0 || t.o.Ended? then t else Ticks(env, det, Tick(env, det, t), n - 1)
  }

  /** `CrashInFlight` is a crash after an operation was handed over and before it
      is applied; `Deliver` applies such an operation, at any later time. */
  datatype Move = Go | CrashAndResume | CrashInFlight | Deliver(i: nat)

  /** A crash drops the driver wherever it is; a fresh engine loads the committed
      row and resumes. */
  function Reload(env: Env, t: Turn): Turn
    requires t.o.Live?
  {
    var id := t.o.d.run.info.id;
    if id !in t.s.tables.runs then t
    else Turn(t.s, Live(Driving(env, t.o.d.id + 1, true, t.s.tables.runs[id], [])))
  }

  function MoveStep(env: Env, det: Det, t: Turn, m: Move): Turn
    requires t.o.Live?
  {
    match m
    case Go => Tick(env, det, t)
    case CrashAndResume => Reload(env, t)
    case CrashInFlight =>
      var c := Oracle(env, det, t.o.d);
      if c.Invoke? then Reload(env, Turn(DriverStep(env, t.s, t.o.d, c).s, t.o)) else Reload(env, t)
    case Deliver(i) => t.(s := Land(t.s, i))
  }

  function Play(env: Env, det: Det, t: Turn, moves: seq<Move>): Turn
    decreases moves
  {
    if moves == [] || t.o.Ended? then t else Play(env, det, MoveStep(env, det, t, moves[0]), moves[1..])
  }

  // ---- one side of the comparison --------------------------------------------------------------

  ghost predicate PcOk(t: Tables, tenant: Id, pc: Pc) {
    && !pc.Requesting? && !pc.Pausing?
    && (pc.Answering? ==> pc.approval < |t.approvals| && t.approvals[pc.approval].tenant == tenant)
  }

  /** A synchronous driver of a stored run, consistent with ledger and entries. */
  ghost predicate Side(env: Env, s: Shared, d: Driver) {
    && d.sync
    && d.run.info.id in s.tables.runs && s.tables.runs[d.run.info.id].info == d.run.info
    && d.run.status == (if d.pc.Answering? then WaitingApproval else Running)
    && AllOf(d.buffer, d.run.info.tenant)
    && PcOk(s.tables, d.run.info.tenant, d.pc)
    && EO.LedgerAgrees(s.tables.effects, s.entries)
    && EO.Fits(env, d.run.info.workflow, d.pc)
    && EO.HoldsEntry(env, d.run.info.workflow, d.run.info.id, d.pc, s.entries)
  }

  /** `y` is `x` after more work of a run of tenant `tenant`. */
  ghost predicate Linked(x: Shared, y: Shared, tenant: Id) {
    && EO.EntriesKept(x.entries, y.entries)
    && (forall k :: k in x.tables.effects ==>
          k in y.tables.effects && y.tables.effects[k].tenant == x.tables.effects[k].tenant)
    && (forall k :: k in y.tables.effects && k !in x.tables.effects ==> y.tables.effects[k].tenant == tenant)
  }

  lemma LinkedTrans(x: Shared, y: Shared, z: Shared, tenant: Id)
    requires Linked(x, y, tenant) && Linked(y, z, tenant)
    ensures Linked(x, z, tenant)
  {
  }

  // ---- what a planned step keeps ------------------------------------------------------------------

  /** Synchronous plans: what `Side` needs besides the exactly-once facts. */
  ghost predicate PlanSide(s: Shared, d: Driver, p: Plan) {
    && (p.goal.Goto? ==>
          && PcOk(TablesAfter(s.tables, d, p), d.run.info.tenant, p.goal.pc)
          && p.status == (if p.goal.pc.Answering? then WaitingApproval else Running))
  }

  lemma ReadySide(env: Env, s: Shared, d: Driver, f: Frame)
    requires d.run.status == Running
    ensures PlanSide(s, d, PlanReady(env, s, d, f))
  {
  }

  lemma AgentSide(env: Env, s: Shared, d: Driver, c: Choice)
    requires (d.pc.Think? || d.pc.Calls? || d.pc.Calling?) && d.run.status == Running
    ensures PlanSide(s, d, PlanFor(env, s, d, c))
  {
  }

  lemma AskSide(env: Env, s: Shared, d: Driver, c: Choice)
    requires (d.pc.Asking? || d.pc.Answering?) && Side(env, s, d) && (d.pc.Answering? ==> c.Answer?)
    ensures PlanSide(s, d, PlanFor(env, s, d, c))
  {
  }

  lemma ExecSide(env: Env, s: Shared, d: Driver, c: Choice)
    requires (d.pc.Executing? || d.pc.Recording?) && d.run.status == Running
    ensures PlanSide(s, d, PlanFor(env, s, d, c))
  {
  }

  lemma PlansSide(env: Env, s: Shared, d: Driver, c: Choice)
    requires Side(env, s, d) && (d.pc.Answering? ==> c.Answer?)
    ensures PlanSide(s, d, PlanFor(env, s, d, c))
  {
    if d.pc.Ready? { ReadySide(env, s, d, d.pc.f); }
    else if d.pc.Think? || d.pc.Calls? || d.pc.Calling? { AgentSide(env, s, d, c); }
    else if d.pc.Asking? || d.pc.Answering? { AskSide(env, s, d, c); }
    else if d.pc.Executing? || d.pc.Recording? { ExecSide(env, s, d, c); }
  }

  lemma StepEffects(s: Shared, d: Driver, p: Plan)
    ensures Linked(s, Perform(s, d, p).s, d.run.info.tenant)
  {
  }

  lemma LandSide(env: Env, s: Shared, i: nat, d: Driver)
    ensures Linked(s, Land(s, i), d.run.info.tenant) && Land(s, i).tables == s.tables
    ensures Side(env, s, d) ==> Side(env, Land(s, i), d)
  {
  }

  /** A tick keeps a side consistent and only adds entries and effects. */
  lemma StepSide(env: Env, s: Shared, d: Driver, c: Choice)
    requires Side(env, s, d) && (d.pc.Answering? ==> c.Answer?)
    ensures var t := DriverStep(env, s, d, c);
            Linked(s, t.s, d.run.info.tenant) && (t.o.Live? ==> Side(env, t.s, t.o.d))
  {
    var p := PlanFor(env, s, d, c);
    PlansSide(env, s, d, c);
    StepEffects(s, d, p);
    EO.PlanSafe(env, s, d, c);
    EO.RecordSafe(s.tables, s.entries, d, p);
    SD.PlanSound(env, s, d, c);
    assert AllOf(d.buffer + p.events, d.run.info.tenant);
  }

  lemma TickSide(env: Env, det: Det, t: Turn)
    requires t.o.Live? && Side(env, t.s, t.o.d)
    ensures var t' := Tick(env, det, t);
            Linked(t.s, t'.s, t.o.d.run.info.tenant) &&
            (t'.o.Live? ==> Side(env, t'.s, t'.o.d) && t'.o.d.run.info == t.o.d.run.info)
  {
    var c := Oracle(env, det, t.o.d);
    var t1 := DriverStep(env, t.s, t.o.d, c);
    StepSide(env, t.s, t.o.d, c);
    if c.Invoke? && t1.o.Live? {
      LandSide(env, t1.s, |t.s.log|, t1.o.d);
      LinkedTrans(t.s, t1.s, Land(t1.s, |t.s.log|), t.o.d.run.info.tenant);
    } else if c.Invoke? {
      LandSide(env, t1.s, |t.s.log|, t.o.d);
      LinkedTrans(t.s, t1.s, Land(t1.s, |t.s.log|), t.o.d.run.info.tenant);
    }
  }

  lemma {:induction false} TicksSide(env: Env, det: Det, t: Turn, n: nat)
    requires t.o.Live? && Side(env, t.s, t.o.d)
    ensures Linked(t.s, Ticks(env, det, t, n).s, t.o.d.run.info.tenant)
    decreases n
  {
    if n > 0 {
      TickSide(env, det, t);
      var t' := Tick(env, det, t);
      if t'.o.Live? {
        TicksSide(env, det, t', n - 1);
        LinkedTrans(t.s, t'.s, Ticks(env, det, t', n - 1).s, t.o.d.run.info.tenant);
      }
    }
  }

  // ---- runs that cannot succeed any more ----------------------------------------------------------

  /** Inside a compensation, or about to commit FAILED. */
  ghost predicate Doomed(pc: Pc) {
    pc.Failing? || (!pc.Top? && !pc.Advancing? && pc.f.comp)
  }

  ghost predicate StaysDoomed(p: Plan) {
    match p.goal
    case Goto(pc) => Doomed(pc)
    case Stop(how) => how != EndSucceeded
  }

  lemma DoomedReady(env: Env, s: Shared, d: Driver, f: Frame)
    requires f.comp
    ensures StaysDoomed(PlanReady(env, s, d, f))
  {
  }

  lemma DoomedAgent(env: Env, s: Shared, d: Driver, c: Choice)
    requires (d.pc.Think? || d.pc.Calls? || d.pc.Calling?) && d.pc.f.comp && d.run.status == Running
    ensures StaysDoomed(PlanFor(env, s, d, c))
  {
  }

  lemma DoomedAsk(env: Env, s: Shared, d: Driver, c: Choice)
    requires (d.pc.Asking? || d.pc.Answering? || d.pc.Requesting? || d.pc.Pausing?) && d.pc.f.comp
    ensures StaysDoomed(PlanFor(env, s, d, c))
  {
  }

  lemma DoomedPlan(env: Env, s: Shared, d: Driver, c: Choice)
    requires Doomed(d.pc) && Side(env, s, d)
    ensures StaysDoomed(PlanFor(env, s, d, c))
  {
    if d.pc.Ready? { DoomedReady(env, s, d, d.pc.f); }
    else if d.pc.Think? || d.pc.Calls? || d.pc.Calling? { DoomedAgent(env, s, d, c); }
    else if d.pc.Asking? || d.pc.Answering? { DoomedAsk(env, s, d, c); }
  }

  lemma {:induction false} DoomedNever(env: Env, det: Det, t: Turn, n: nat)
    requires t.o.Live? && Doomed(t.o.d.pc) && Side(env, t.s, t.o.d)
    ensures Ticks(env, det, t, n).o != Ended(EndSucceeded)
    decreases n
  {
    if n > 0 {
      DoomedPlan(env, t.s, t.o.d, Oracle(env, det, t.o.d));
      TickSide(env, det, t);
      if Tick(env, det, t).o.Live? { DoomedNever(env, det, Tick(env, det, t), n - 1); }
    }
  }

  /** Where `Look` is mentioned, a proof sees through `Wins`. */
  ghost predicate Look(t: Turn, n: nat) { true }

  ghost predicate Reaches(run: (Turn, nat) -> Turn, t: Turn, n: nat, fin: Turn) {
    forall u, k {:trigger Look(u, k)} :: u == t && k == n && Look(u, k) ==> run(u, k) == fin
  }

  ghost function Runner(env: Env, det: Det): (Turn, nat) -> Turn {
    (t: Turn, n: nat) => Ticks(env, det, t, n)
  }

  /** The crash-free run from `t` succeeds in `n` ticks, ending in `fin`. */
  ghost predicate Wins(env: Env, det: Det, t: Turn, n: nat, fin: Turn) {
    Reaches(Runner(env, det), t, n, fin) && fin.o == Ended(EndSucceeded)
  }

  lemma WinsIs(env: Env, det: Det, t: Turn, n: nat, fin: Turn)
    ensures Wins(env, det, t, n, fin) <==> Ticks(env, det, t, n) == fin && fin.o == Ended(EndSucceeded)
  {
    assert Look(t, n);
    assert Runner(env, det)(t, n) == Ticks(env, det, t, n);
  }

  lemma ReachesNext(run: (Turn, nat) -> Turn, t: Turn, u: Turn, n: nat, fin: Turn)
    requires t.o.Live? && fin.o.Ended? && Reaches(run, t, n, fin)
    requires run(t, n) == if n == 0 then t else run(u, n - 1)
    requires n > 0 && u.o.Ended? ==> run(u, n - 1) == u
    ensures n > 0 && Reaches(run, u, n - 1, fin) && (u.o.Ended? ==> u == fin)
  {
    assert Look(t, n);
  }

  lemma RunnerNext(env: Env, det: Det, t: Turn, n: nat)
    requires t.o.Live?
    ensures var run, u := Runner(env, det), Tick(env, det, t);
            && run(t, n) == (if n == 0 then t else run(u, n - 1))
            && (n > 0 && u.o.Ended? ==> run(u, n - 1) == u)
  {
  }

  lemma WinsTick(env: Env, det: Det, t: Turn, n: nat, fin: Turn)
    requires t.o.Live? && Wins(env, det, t, n, fin)
    ensures n > 0 && Wins(env, det, Tick(env, det, t), n - 1, fin)
    ensures Tick(env, det, t).o.Ended? ==> Tick(env, det, t) == fin
  {
    RunnerNext(env, det, t, n);
    ReachesNext(Runner(env, det), t, Tick(env, det, t), n, fin);
  }

  lemma WinsAlive(env: Env, det: Det, t: Turn, n: nat, fin: Turn)
    requires t.o.Live? && Side(env, t.s, t.o.d) && Wins(env, det, t, n, fin)
    ensures !Doomed(t.o.d.pc) && EO.EntriesKept(t.s.entries, fin.s.entries)
  {
    WinsIs(env, det, t, n, fin);
    if Doomed(t.o.d.pc) { DoomedNever(env, det, t, n); }
    TicksSide(env, det, t, n);
  }

  /** The entries of the crash-free run after its next tick are final. */
  lemma TickFinal(env: Env, det: Det, a: Turn, n: nat, fin: Turn)
    requires a.o.Live? && Side(env, a.s, a.o.d) && Wins(env, det, a, n, fin)
    ensures EO.EntriesKept(Tick(env, det, a).s.entries, fin.s.entries)
  {
    WinsTick(env, det, a, n, fin);
    TickSide(env, det, a);
    var a' := Tick(env, det, a);
    if a'.o.Live? { WinsAlive(env, det, a', n - 1, fin); }
  }

  // ---- the crash-free run and the crashing one, side by side ----------------------------------------

  ghost predicate RunLike(a: Run, b: Run) {
    b == a.(cost := b.cost) && b.cost <= a.cost
  }

  /** The same program point, up to approval row numbers and attempts made. */
  ghost predicate PcLike(p: Pc, q: Pc) {
    match p
    case Answering(f, purpose, _) => q.Answering? && q.f == f && q.p == purpose
    case Advancing(_, next) => q.Advancing? && q.next == next
    case _ => q == p
  }

  ghost predicate DriverLike(a: Driver, b: Driver) {
    RunLike(a.run, b.run) && PcLike(a.pc, b.pc)
  }

  ghost predicate PlanLike(p: Plan, q: Plan) {
    && p.keep == q.keep && p.status == q.status && p.cursor == q.cursor && p.result == q.result
    && p.steps == q.steps && p.cost == q.cost
    && (p.op == q.op || (p.op.SettleApproval? && q.op.SettleApproval?))
    && (match p.goal
        case Goto(pc) => q.goal.Goto? && PcLike(pc, q.goal.pc)
        case Stop(_) => q.goal == p.goal)
  }

  lemma OracleLike(env: Env, det: Det, a: Driver, b: Driver)
    requires DriverLike(a, b)
    ensures Oracle(env, det, a) == Oracle(env, det, b)
  {
  }

  ghost predicate Pair(env: Env, a: Turn, b: Turn) {
    && a.o.Live? && b.o.Live? && DriverLike(a.o.d, b.o.d)
    && Side(env, a.s, a.o.d) && Side(env, b.s, b.o.d)
  }

  lemma RaiseLike(env: Env, a: Driver, b: Driver, f: Frame, e: Fault, p: Plan, q: Plan)
    requires a.run.info == b.run.info && PlanLike(p.(goal := Stop(EndEscaped)), q.(goal := Stop(EndEscaped)))
    ensures PlanLike(Raise(env, a, f, e, p), Raise(env, b, f, e, q))
  {
  }

  lemma GateLike(env: Env, a: Driver, b: Driver, f: Frame, tool: Tool, args: Dict)
    requires RunLike(a.run, b.run)
    ensures PlanLike(PlanGate(env, a, f, tool, args), PlanGate(env, b, f, tool, args))
  {
  }

  /** The ledger answers both sides alike. */
  ghost predicate LedgerLike(x: Shared, y: Shared, tenant: Id, key: string) {
    GetEffect(x.tables, tenant, key) == GetEffect(y.tables, tenant, key) ||
    (GetEffect(x.tables, tenant, key).Missing? && GetEffect(y.tables, tenant, key) == Found(Null))
  }

  lemma ToolLike(env: Env, x: Shared, y: Shared, a: Driver, b: Driver, f: Frame, name: string)
    requires RunLike(a.run, b.run)
    requires name in env.tools && env.tools[name].sideEffect ==>
               LedgerLike(x, y, a.run.info.tenant, EffectKey(a.run.info.id, f.step, name))
    ensures PlanLike(PlanTool(env, x, a, f, name), PlanTool(env, y, b, f, name))
  {
    RaiseLike(env, a, b, f, Broken, Idle(a), Idle(b));
    var args := StepOf(env, a.run.info.workflow, f.step).args(a.run.context);
    if name in env.tools && args.Some? {
      GateLike(env, a, b, f, env.tools[name].(name := name), args.value);
    }
  }

  lemma ReadyLike(env: Env, x: Shared, y: Shared, a: Driver, b: Driver, f: Frame)
    requires RunLike(a.run, b.run)
    requires var node := StepOf(env, a.run.info.workflow, f.step).node;
             node.ToolNode? && node.tool in env.tools && env.tools[node.tool].sideEffect ==>
               LedgerLike(x, y, a.run.info.tenant, EffectKey(a.run.info.id, f.step, node.tool))
    ensures PlanLike(PlanReady(env, x, a, f), PlanReady(env, y, b, f))
  {
    RaiseLike(env, a, b, f, Broken, Idle(a), Idle(b));
    var node := StepOf(env, a.run.info.workflow, f.step).node;
    if node.ToolNode? { ToolLike(env, x, y, a, b, f, node.tool); }
  }

  lemma AgentLike(env: Env, x: Shared, y: Shared, a: Driver, b: Driver, c: Choice)
    requires DriverLike(a, b) && (a.pc.Think? || a.pc.Calls?)
    ensures PlanLike(PlanFor(env, x, a, c), PlanFor(env, y, b, c))
  {
    RaiseLike(env, a, b, a.pc.f, Broken, Idle(a), Idle(b));
  }

  /** An answered operation gives both sides the same result. */
  ghost predicate AnswerLike(x: Shared, y: Shared, tool: Tool, args: Dict, invoked: bool, v: Json) {
    Answered(x, tool, args, invoked, v) == Answered(y, tool, args, invoked, v)
  }

  lemma CallingLike(env: Env, x: Shared, y: Shared, a: Driver, b: Driver, c: Choice)
    requires DriverLike(a, b) && a.pc.Calling?
    requires c.Return? && a.pc.calls != [] && a.pc.calls[0].tool in env.tools ==>
               AnswerLike(x, y, env.tools[a.pc.calls[0].tool].(name := a.pc.calls[0].tool), a.pc.calls[0].args, a.pc.invoked, c.v)
    ensures PlanLike(PlanFor(env, x, a, c), PlanFor(env, y, b, c))
  {
    RaiseLike(env, a, b, a.pc.f, Broken, Idle(a), Idle(b));
    RaiseLike(env, a, b, a.pc.f, Connector, Idle(a), Idle(b));
  }

  lemma ExecutingLike(env: Env, x: Shared, y: Shared, a: Driver, b: Driver, c: Choice)
    requires DriverLike(a, b) && a.pc.Executing?
    requires c.Return? && a.pc.tool in env.tools ==>
               AnswerLike(x, y, env.tools[a.pc.tool].(name := a.pc.tool),
                          KeyedArgs(a.run.info.id, a.pc.f.step, a.pc.tool, a.pc.args), a.pc.invoked, c.v)
    ensures PlanLike(PlanFor(env, x, a, c), PlanFor(env, y, b, c))
  {
    RaiseLike(env, a, b, a.pc.f, Broken, Idle(a), Idle(b));
    RaiseLike(env, a, b, a.pc.f, Connector, Idle(a), Idle(b));
  }

  lemma RecordingLike(env: Env, x: Shared, y: Shared, a: Driver, b: Driver, c: Choice)
    requires DriverLike(a, b) && a.pc.Recording?
    ensures PlanLike(PlanFor(env, x, a, c), PlanFor(env, y, b, c))
  {
    RaiseLike(env, a, b, a.pc.f, Broken, Idle(a), Idle(b));
  }

  lemma AskLike(env: Env, a: Turn, b: Turn, c: Choice)
    requires Pair(env, a, b) && (a.o.d.pc.Asking? || (a.o.d.pc.Answering? && c.Answer?))
    ensures PlanLike(PlanFor(env, a.s, a.o.d, c), PlanFor(env, b.s, b.o.d, c))
  {
  }

  /** Spending less, the crashing run is not stopped by the budget either. */
  lemma WalkLike(env: Env, a: Turn, b: Turn, c: Choice)
    requires Pair(env, a, b) && (a.o.d.pc.Top? || a.o.d.pc.Advancing?)
    requires a.o.d.pc.Top? ==> PlanFor(env, a.s, a.o.d, c).goal.Goto?
    ensures PlanLike(PlanFor(env, a.s, a.o.d, c), PlanFor(env, b.s, b.o.d, c))
  {
  }

  // ---- both sides take the same step --------------------------------------------------------------------

  /** Both sides, with everything the crashing one has posted among the final
      entries `all` of the crash-free run. */
  ghost predicate Rel(env: Env, a: Turn, b: Turn, all: map<Json, Json>) {
    Pair(env, a, b) && Linked(a.s, b.s, a.o.d.run.info.tenant) && EO.EntriesKept(b.s.entries, all)
  }

  ghost predicate AtMutating(env: Env, d: Driver) {
    d.pc.Ready? && EO.Mutating(env, d.run.info.workflow, d.pc.f.step)
  }

  ghost function KeyAt(env: Env, d: Driver): string
    requires AtMutating(env, d)
  {
    EffectKey(d.run.info.id, d.pc.f.step, StepOf(env, d.run.info.workflow, d.pc.f.step).node.tool)
  }

  /** Only the crashing side finds the effect in the ledger. */
  ghost predicate Jumps(env: Env, a: Turn, b: Turn)
    requires a.o.Live?
  {
    && AtMutating(env, a.o.d)
    && KeyAt(env, a.o.d) !in a.s.tables.effects
    && KeyAt(env, a.o.d) in b.s.tables.effects && b.s.tables.effects[KeyAt(env, a.o.d)].result != Null
  }

  lemma NoJump(env: Env, a: Turn, b: Turn, all: map<Json, Json>)
    requires Rel(env, a, b, all) && AtMutating(env, a.o.d) && !Jumps(env, a, b)
    ensures LedgerLike(a.s, b.s, a.o.d.run.info.tenant, KeyAt(env, a.o.d))
  {
  }

  /** The driver waits for something that never comes. */
  ghost predicate Stuck(env: Env, det: Det, t: Turn) {
    t.o.Live? && var c := Oracle(env, det, t.o.d); !c.Invoke? && PlanFor(env, t.s, t.o.d, c) == Idle(t.o.d)
  }

  lemma IdleStutters(env: Env, det: Det, t: Turn)
    requires Stuck(env, det, t)
    ensures Tick(env, det, t) == t
  {
    assert t.o.d.buffer + [] + [] == t.o.d.buffer;
    assert t.s.log + [] == t.s.log;
  }

  function Iterate(f: Turn -> Turn, t: Turn, n: nat): Turn
    decreases n
  {
    if n == 0 then t else Iterate(f, f(t), n - 1)
  }

  lemma IterateFixed(f: Turn -> Turn, t: Turn, n: nat)
    requires f(t) == t
    ensures Iterate(f, t, n) == t
    decreases n
  {
    if n > 0 { IterateFixed(f, t, n - 1); }
  }

  lemma {:induction false} TicksIterate(env: Env, det: Det, f: Turn -> Turn, t: Turn, n: nat)
    requires forall x :: f(x) == if x.o.Live? then Tick(env, det, x) else x
    ensures Ticks(env, det, t, n) == Iterate(f, t, n)
    decreases n
  {
    if n > 0 {
      TicksIterate(env, det, f, f(t), n - 1);
      if t.o.Ended? { IterateFixed(f, t, n); }
    }
  }

  lemma NeverStuck(env: Env, det: Det, t: Turn, n: nat, fin: Turn)
    requires Wins(env, det, t, n, fin)
    ensures !Stuck(env, det, t)
  {
    if Stuck(env, det, t) {
      WinsIs(env, det, t, n, fin);
      var f := (x: Turn) => if x.o.Live? then Tick(env, det, x) else x;
      TicksIterate(env, det, f, t, n);
      IdleStutters(env, det, t);
      IterateFixed(f, t, n);
    }
  }

  lemma AnswersLike(x: Shared, y: Shared, tool: Tool, args: Dict, invoked: bool, v: Json)
    requires EO.EntriesKept(x.entries, y.entries) && Answered(x, tool, args, invoked, v).Some?
    ensures AnswerLike(x, y, tool, args, invoked, v)
  {
  }

  lemma CallPlansLike(env: Env, det: Det, a: Turn, b: Turn, all: map<Json, Json>, n: nat, fin: Turn)
    requires Rel(env, a, b, all) && Wins(env, det, a, n, fin) && (a.o.d.pc.Calling? || a.o.d.pc.Executing?)
    ensures var c := Oracle(env, det, a.o.d); PlanLike(PlanFor(env, a.s, a.o.d, c), PlanFor(env, b.s, b.o.d, c))
  {
    var c, pc := Oracle(env, det, a.o.d), a.o.d.pc;
    if Stuck(env, det, a) { NeverStuck(env, det, a, n, fin); }
    if pc.Calling? {
      if c.Return? && pc.calls != [] && pc.calls[0].tool in env.tools {
        AnswersLike(a.s, b.s, env.tools[pc.calls[0].tool].(name := pc.calls[0].tool), pc.calls[0].args, pc.invoked, c.v);
      }
      CallingLike(env, a.s, b.s, a.o.d, b.o.d, c);
    } else {
      if c.Return? && pc.tool in env.tools {
        AnswersLike(a.s, b.s, env.tools[pc.tool].(name := pc.tool),
                    KeyedArgs(a.o.d.run.info.id, pc.f.step, pc.tool, pc.args), pc.invoked, c.v);
      }
      ExecutingLike(env, a.s, b.s, a.o.d, b.o.d, c);
    }
  }

  lemma PlansLike(env: Env, det: Det, a: Turn, b: Turn, all: map<Json, Json>, n: nat, fin: Turn)
    requires Rel(env, a, b, all) && Wins(env, det, a, n, fin) && !Jumps(env, a, b)
    ensures var c := Oracle(env, det, a.o.d); PlanLike(PlanFor(env, a.s, a.o.d, c), PlanFor(env, b.s, b.o.d, c))
  {
    var c, pc := Oracle(env, det, a.o.d), a.o.d.pc;
    WinsAlive(env, det, a, n, fin);
    if pc.Top? || pc.Advancing? {
      WinsTick(env, det, a, n, fin);
      WalkLike(env, a, b, c);
    } else if pc.Ready? {
      if AtMutating(env, a.o.d) { NoJump(env, a, b, all); }
      ReadyLike(env, a.s, b.s, a.o.d, b.o.d, pc.f);
    } else if pc.Think? || pc.Calls? { AgentLike(env, a.s, b.s, a.o.d, b.o.d, c); }
    else if pc.Calling? || pc.Executing? { CallPlansLike(env, det, a, b, all, n, fin); }
    else if pc.Recording? { RecordingLike(env, a.s, b.s, a.o.d, b.o.d, c); }
    else { AskLike(env, a, b, c); }
  }

  lemma RunsLike(a: Driver, b: Driver, p: Plan, q: Plan)
    requires RunLike(a.run, b.run) && PlanLike(p, q)
    ensures RunLike(RunAfter(a, p), RunAfter(b, q))
  {
  }

  lemma EffectsLike(x: Shared, y: Shared, a: Driver, b: Driver, p: Plan, q: Plan)
    requires RunLike(a.run, b.run) && PlanLike(p, q) && Linked(x, y, a.run.info.tenant)
    ensures Linked(Perform(x, a, p).s, Perform(y, b, q).s, a.run.info.tenant)
  {
  }

  lemma PerformLike(x: Shared, y: Shared, a: Driver, b: Driver, p: Plan, q: Plan)
    requires RunLike(a.run, b.run) && PlanLike(p, q) && Linked(x, y, a.run.info.tenant)
    ensures var t, u := Perform(x, a, p), Perform(y, b, q);
            && Linked(t.s, u.s, a.run.info.tenant)
            && t.s.entries == x.entries && u.s.entries == y.entries
            && RunLike(RunAfter(a, p), RunAfter(b, q))
            && (match t.o
                case Live(d) => u.o.Live? && DriverLike(d, u.o.d)
                case Ended(_) => u.o == t.o)
  {
    RunsLike(a, b, p, q);
    EffectsLike(x, y, a, b, p, q);
  }

  /** What an invocation appends to the log. */
  ghost predicate SamePost(x: seq<Act>, y: seq<Act>) {
    || (x == [] && y == [])
    || (|x| == 1 && |y| == 1 && x[0].Posted? && y[0].Posted? && x[0].key == y[0].key && x[0].value == y[0].value)
  }

  lemma InvokeLike(env: Env, x: Shared, y: Shared, a: Driver, b: Driver)
    requires DriverLike(a, b) && (a.pc.Calling? || a.pc.Executing?)
    ensures SamePost(PlanFor(env, x, a, Invoke).acts, PlanFor(env, y, b, Invoke).acts)
  {
  }

  /** The operation lands on both sides; the crashing side may have it already,
      but then with the value the crash-free side gets now. */
  lemma LandLike(x: Shared, y: Shared, i: nat, j: nat, all: map<Json, Json>)
    requires EO.EntriesKept(x.entries, y.entries) && EO.EntriesKept(y.entries, all)
    requires EO.EntriesKept(Land(x, i).entries, all)
    requires (i >= |x.log| && j >= |y.log|) ||
             (i < |x.log| && j < |y.log| && x.log[i].Posted? && y.log[j].Posted? &&
              x.log[i].key == y.log[j].key && x.log[i].value == y.log[j].value)
    ensures EO.EntriesKept(Land(x, i).entries, Land(y, j).entries) && EO.EntriesKept(Land(y, j).entries, all)
  {
  }

  /** Both sides tick, in step. */
  lemma Lockstep(env: Env, det: Det, a: Turn, b: Turn, n: nat, fin: Turn)
    requires Rel(env, a, b, fin.s.entries) && Wins(env, det, a, n, fin) && !Jumps(env, a, b)
    ensures var a', b' := Tick(env, det, a), Tick(env, det, b);
            && EO.EntriesKept(a'.s.entries, b'.s.entries) && EO.EntriesKept(b'.s.entries, fin.s.entries)
            && (match a'.o
                case Live(_) => Rel(env, a', b', fin.s.entries)
                case Ended(_) => b'.o == a'.o)
  {
    var c := Oracle(env, det, a.o.d);
    var p, q := PlanFor(env, a.s, a.o.d, c), PlanFor(env, b.s, b.o.d, c);
    OracleLike(env, det, a.o.d, b.o.d);
    PlansLike(env, det, a, b, fin.s.entries, n, fin);
    PerformLike(a.s, b.s, a.o.d, b.o.d, p, q);
    TickSide(env, det, a);
    TickSide(env, det, b);
    if c.Invoke? {
      TickFinal(env, det, a, n, fin);
      InvokeLike(env, a.s, b.s, a.o.d, b.o.d);
      LandLike(DriverStep(env, a.s, a.o.d, c).s, DriverStep(env, b.s, b.o.d, c).s, |a.s.log|, |b.s.log|, fin.s.entries);
    }
  }
}
