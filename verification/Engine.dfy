/** The engine object itself: a loop over steps with retries, approvals and
    compensation, working on its copy of the run, its event buffer and the store.
    Whatever the model, the connectors and the approvers answer, what it does is a
    path of the transition system of module Machine, and it always comes to an
    end. */
module Engine {
  import opened Core
  import opened StoreSpec
  import opened Machine
  import opened Store
  import opened Tools
  import opened Edges

  /** A step returns the next step or raises. */
  datatype Result = Next(next: Option<Id>) | Raised(e: Fault)

  lemma {:induction false} StepsAppend(env: Env, t: Turn, ms: seq<Micro>, m: Micro)
    requires Steps(env, t, ms).o.Live?
    ensures Steps(env, t, ms + [m]) == MicroStep(env, Steps(env, t, ms), m)
    decreases ms
  {
    if ms == [] {
      assert [m][1..] == [];
    } else {
      assert (ms + [m])[1..] == ms[1..] + [m];
      StepsAppend(env, MicroStep(env, t, ms[0]), ms[1..], m);
    }
  }

  function Cat<T>(a: seq<T>, b: seq<T>): seq<T> {
    if b == [] then a else if a == [] then b else a + b
  }

  lemma PerformIs(s: Shared, d: Driver, p: Plan, pc: Pc, s': Shared, run: Run, buffer: seq<Event>)
    requires p.goal == Goto(pc) && s'.tables == TablesAfter(s.tables, d, p) && s'.entries == s.entries
    requires s'.log == Cat(s.log, p.acts) && run == RunAfter(d, p)
    requires buffer == Cat(if p.op.Commit? then [] else Cat(d.buffer, p.events), p.late)
    ensures Perform(s, d, p) == Turn(s', Live(Driver(d.id, d.sync, run, buffer, pc)))
  {
    assert s.log + p.acts == Cat(s.log, p.acts);
    assert d.buffer + p.events == Cat(d.buffer, p.events);
    assert BufferAfter(d, p) == buffer;
  }

  // ---- what the transition system plans at a step ---------------------------------------------------

  lemma PlansBranch(env: Env, s: Shared, d: Driver, f: Frame, arms: seq<Arm>, c: Choice)
    requires d.pc == Ready(f) && StepOf(env, d.run.info.workflow, f.step).node == BranchNode(arms)
    ensures var r := Select(arms, StepOf(env, d.run.info.workflow, f.step).next, d.run.context);
            PlanFor(env, s, d, c) ==
            if !r.ok then Raise(env, d, f, Broken, Idle(d))
            else Idle(d).(events := if r.hit then [Machine.Ev(d, BranchTaken, Some(f.step), 0.0, GotoOf(r.next))] else [],
                          goal := Goto(DonePc(f, r.next)))
  {
  }

  lemma IdleChangesNothing(t: Tables, d: Driver, p: Plan)
    requires p == Idle(d).(acts := p.acts, events := p.events, late := p.late, goal := p.goal)
    ensures TablesAfter(t, d, p) == t && RunAfter(d, p) == d.run
  {
  }

  /** Where a step that returned has led. */
  function DonePc(f: Frame, next: Option<Id>): Pc {
    if f.comp then Failing(f.main) else Advancing(f, next)
  }

  function SettledPc(env: Env, wf: Id, f: Frame, p: Purpose): Pc {
    match p
    case ForNode => DonePc(f, StepOf(env, wf, f.step).next)
    case ForCall(tool, args) => Executing(f, tool, args, false)
  }

  lemma SettleIs(env: Env, d: Driver, f: Frame, p: Purpose, granted: bool, q: Plan)
    ensures Settle(env, d, f, p, granted, q) ==
            if granted then q.(goal := Goto(SettledPc(env, d.run.info.workflow, f, p))) else Raise(env, d, f, Refused, q)
  {
  }

  lemma GoalFree(t: Tables, d: Driver, p: Plan, goal: Goal)
    ensures TablesAfter(t, d, p.(goal := goal)) == TablesAfter(t, d, p)
    ensures RunAfter(d, p.(goal := goal)) == RunAfter(d, p)
  {
  }

  lemma LateFree(t: Tables, d: Driver, p: Plan, late: seq<Event>, more: seq<Event>)
    ensures TablesAfter(t, d, p.(late := late)) == TablesAfter(t, d, p.(late := more))
    ensures RunAfter(d, p.(late := late)) == RunAfter(d, p.(late := more))
  {
  }

  lemma CatMore<T>(a: seq<T>, b: seq<T>, x: T)
    ensures Cat(a, b + [x]) == Cat(a, b) + [x]
  {
  }

  lemma AllOfMore(es: seq<Event>, e: Event, tenant: Id)
    ensures AllOf(es + [e], tenant) <==> AllOf(es, tenant) && e.tenant == tenant
  {
    if AllOf(es + [e], tenant) {
      assert (es + [e])[|es|] == e;
      assert forall i :: 0 <= i < |es| ==> es[i] == (es + [e])[i];
    }
  }

  lemma RaiseRetries(env: Env, d: Driver, f: Frame, p: Plan)
    requires !f.comp && p.late == [] && f.attempt < StepOf(env, d.run.info.workflow, f.step).maxAttempts
    ensures Raise(env, d, f, Connector, p) ==
            p.(late := [Machine.Ev(d, StepRetry, Some(f.step), 0.0, Str(f.step))],
               goal := Goto(Ready(f.(attempt := f.attempt + 1))))
  {
  }

  lemma RaiseSwallowed(env: Env, d: Driver, f: Frame, e: Fault, p: Plan)
    requires f.comp && p.late == []
    ensures Raise(env, d, f, e, p) ==
            p.(late := [Machine.Ev(d, CompensationFailed, Some(f.step), 0.0, Str(f.step))], goal := Goto(Failing(f.main)))
  {
  }

  /** An arm that does not decline is the first such arm and the only one. */
  lemma OneArm(arms: seq<Arm>, ctx: Dict, i: nat)
    requires i < |arms| && Passed(arms, ctx, i) && !Declines(arms[i], ctx)
    ensures !Passed(arms, ctx, |arms|)
    ensures forall k: nat :: Takes(arms, ctx, k) ==> k == i && Holds(arms[i], ctx)
    ensures TestRaises(arms, ctx) ==> Raises(arms[i], ctx)
  {
  }

  lemma AllPassed(arms: seq<Arm>, ctx: Dict)
    requires Passed(arms, ctx, |arms|)
    ensures !TestRaises(arms, ctx) && forall k: nat :: !Takes(arms, ctx, k)
  {
  }

  // ---- connector calls ---------------------------------------------------------------------------------

  ghost function WithInvoked(pc: Pc, invoked: bool): Pc
    requires pc.Executing? || pc.Calling?
  {
    match pc
    case Executing(f, tool, args, _) => Executing(f, tool, args, invoked)
    case Calling(f, i, task, calls, done, _) => Calling(f, i, task, calls, done, invoked)
  }

  /** At `pc`, tool `t` is called for `step` with `args` on behalf of `caller`. */
  ghost predicate Operates(env: Env, wf: Id, pc: Pc, step: Id, caller: Caller, t: Tool, args: Dict) {
    && (pc.Executing? || pc.Calling?) && pc.f.step == step
    && t.name in env.tools && t == env.tools[t.name].(name := t.name)
    && (pc.Executing? ==> caller == ByNode && pc.tool == t.name && pc.args == args)
    && (pc.Calling? ==>
          caller == ByAgent(AgentOf(env, wf, pc.f).name) && pc.calls != [] && pc.calls[0] == Call(t.name, args))
  }

  lemma InvokePlan(env: Env, s: Shared, d: Driver, step: Id, caller: Caller, t: Tool, args: Dict)
    requires Operates(env, d.run.info.workflow, d.pc, step, caller, t, args)
    ensures PlanFor(env, s, d, Invoke) ==
            Idle(d).(acts := Submit(d, step, caller, t, args), goal := Goto(WithInvoked(d.pc, true)))
  {
  }

  /** What an agent's call that returned `v` leads to. */
  lemma ReturnPlan(env: Env, s: Shared, d: Driver, t: Tool, v: Json)
    requires d.pc.Calling? && d.pc.calls != [] && d.pc.calls[0].tool == t.name && d.pc.invoked
    requires t.name in env.tools && t == env.tools[t.name].(name := t.name)
    requires t.sideEffect ==> var key := OpKey(d.pc.calls[0].args); key in s.entries && v == s.entries[key]
    ensures PlanFor(env, s, d, Return(v)) ==
            Idle(d).(events := [Machine.Ev(d, ToolResult, None, t.cost, v)], cost := t.cost,
                     goal := Goto(Calls(d.pc.f, d.pc.i, d.pc.task, d.pc.calls[1..],
                                        d.pc.done + [CallResult(t.name, true, v)])))
  {
  }

  /** What a tool node's call that returned `v` leads to. */
  lemma ResultPlan(env: Env, s: Shared, d: Driver, t: Tool, v: Json)
    requires d.pc.Executing? && d.pc.tool == t.name && d.pc.invoked
    requires t.name in env.tools && t == env.tools[t.name].(name := t.name)
    requires t.sideEffect ==>
               var key := OpKey(KeyedArgs(d.run.info.id, d.pc.f.step, t.name, d.pc.args)); key in s.entries && v == s.entries[key]
    ensures PlanFor(env, s, d, Return(v)) ==
            Idle(d).(acts := if t.sideEffect then []
                             else [Observed(d.id, d.run.info.id, d.pc.f.step, t.name, d.pc.args, d.run.context, v)],
                     goal := Goto(Recording(d.pc.f, t.name, v)))
  {
  }

  class WorkflowEngine {
    const env: Env
    ghost const id: nat
    const sync: bool
    const store: SqlStore
    const external: ExternalSystem

    var run: Run
    var buffer: seq<Event>

    /** History, and the path taken in the transition system since `start`. */
    ghost var log: seq<Act>
    ghost var start: Turn
    ghost var path: seq<Micro>

    /** Where an exception in flight was raised, and what was done before. */
    ghost var held: Turn
    ghost var move: Choice
    ghost var plan: Plan

    ghost function S(): Shared
      reads this, store, external
    {
      Shared(store.T(), external.entries, log)
    }

    ghost function At(pc: Pc): Turn
      reads this, store, external
    {
      Turn(S(), Live(Driver(id, sync, run, buffer, pc)))
    }

    /** The path has led to program point `pc`. */
    ghost predicate On(pc: Pc)
      reads this, store, external
    {
      Steps(env, start, path) == At(pc)
    }

    /** An exception `e` is leaving the step at `f`; `late` has been emitted by
        the handlers so far. */
    ghost predicate Raising(f: Frame, e: Fault, late: seq<Event>)
      reads this, store, external
    {
      && Steps(env, start, path) == held && held.o.Live? && plan.late == []
      && PlanFor(env, held.s, held.o.d, move) == Raise(env, held.o.d, f, e, plan)
      && Made(held, plan.(late := late))
    }

    constructor (env: Env, ghost id: nat, sync: bool, store: SqlStore, external: ExternalSystem, run: Run, ghost log: seq<Act>)
      ensures this.env == env && this.id == id && this.sync == sync && this.store == store && this.external == external
      ensures this.run == run && this.buffer == [] && this.log == log
    {
      this.env, this.id, this.sync, this.store, this.external := env, id, sync, store, external;
      this.run, this.buffer, this.log := run, [], log;
      start := Turn(Shared(EMPTY, map[], []), Ended(EndEscaped));
      path, move := [], Proceed;
      held := start;
      plan := Plan([], Nothing, [], [], 0.0, 0, None, Pending, None, None, Stop(EndEscaped));
    }

    // ---- following the path ------------------------------------------------------------------

    /** The engine's state is what plan `p` makes of `was`. */
    ghost predicate Made(was: Turn, p: Plan)
      requires was.o.Live?
      reads this, store, external
    {
      && was.o.d.id == id && was.o.d.sync == sync
      && store.T() == TablesAfter(was.s.tables, was.o.d, p)
      && external.entries == was.s.entries && log == Cat(was.s.log, p.acts)
      && run == RunAfter(was.o.d, p)
      && buffer == Cat(if p.op.Commit? then [] else Cat(was.o.d.buffer, p.events), p.late)
    }

    /** The engine did what the transition system plans at `was`. */
    ghost method Did(was: Turn, c: Choice, p: Plan, pc: Pc)
      requires Steps(env, start, path) == was && was.o.Live? && Made(was, p) && p.goal == Goto(pc)
      requires PlanFor(env, was.s, was.o.d, c) == p
      modifies this`path
      ensures On(pc)
    {
      StepsAppend(env, start, path, Choose(c));
      PerformIs(was.s, was.o.d, p, pc, S(), run, buffer);
      path := path + [Choose(c)];
    }

    ghost method Threw(was: Turn, c: Choice, p: Plan, f: Frame, e: Fault)
      requires Steps(env, start, path) == was && was.o.Live? && Made(was, p) && p.late == []
      requires PlanFor(env, was.s, was.o.d, c) == Raise(env, was.o.d, f, e, p)
      modifies this`held, this`move, this`plan
      ensures Raising(f, e, [])
    {
      held, move, plan := was, c, p;
    }

    // ---- events ----------------------------------------------------------------------------------

    function Ev(kind: Kind, step: Option<Id>, cost: real, payload: Json): Event
      reads this
    {
      Event(run.info.id, run.info.tenant, kind, step, cost, payload)
    }

    method Emit(kind: Kind, step: Option<Id>, cost: real, payload: Json)
      modifies this`buffer
      ensures buffer == old(buffer) + [Ev(kind, step, cost, payload)]
    {
      buffer := buffer + [Event(run.info.id, run.info.tenant, kind, step, cost, payload)];
    }

    /** One transaction for the run and everything emitted since the last one. */
    method Commit() returns (ok: bool)
      modifies this`buffer, store
      ensures ok <==> Checkpoint(old(store.T()), run, old(buffer)).Some?
      ensures store.T() == OrElse(Checkpoint(old(store.T()), run, old(buffer)), old(store.T()))
      ensures buffer == if ok then [] else old(buffer)
    {
      ok := store.Checkpoint(run, buffer);
      if ok { buffer := []; }
    }

    /** The stored row of this run is the engine's copy. */
    ghost predicate Saved()
      reads this, store
    {
      run.info.id in store.runs && store.runs[run.info.id].info == run.info ==> store.runs[run.info.id] == run
    }

    // ---- branch nodes ------------------------------------------------------------------------------

    method RunBranch(f: Frame, arms: seq<Arm>) returns (r: Result)
      requires On(Ready(f)) && StepOf(env, run.info.workflow, f.step).node == BranchNode(arms)
      modifies this`run, this`buffer, this`log, this`path, this`held, this`move, this`plan
      ensures run == old(run)
      ensures r.Next? ==> On(DonePc(f, r.next))
      ensures r.Raised? ==> Raising(f, r.e, [])
      ensures r != Raised(Paused)
      ensures forall k: nat :: Takes(arms, run.context, k) ==>
                r == Next(Some(arms[k].goto)) &&
                buffer == old(buffer) + [Ev(BranchTaken, Some(f.step), 0.0, Str(arms[k].goto))]
      ensures Passed(arms, run.context, |arms|) ==>
                r == Next(StepOf(env, run.info.workflow, f.step).next) && buffer == old(buffer)
      ensures TestRaises(arms, run.context) ==> r == Raised(Broken) && buffer == old(buffer)
      ensures r.Next? ==> EdgeOf(StepOf(env, run.info.workflow, f.step), run.context, r.next)
    {
      ghost var was := At(Ready(f));
      ghost var d := was.o.d;
      PlansBranch(env, was.s, d, f, arms, Proceed);
      ghost var p := PlanFor(env, was.s, d, Proceed);
      var next := StepOf(env, run.info.workflow, f.step).next;
      var i := 0;
      while i < |arms|
        invariant 0 <= i <= |arms| && At(Ready(f)) == was == Steps(env, start, path) && run == old(run)
        invariant Passed(arms, run.context, i)
      {
        if arms[i].test.None? {
          r := TakeArm(f, arms, i);
          return;
        }
        var hit := arms[i].test.value(run.context);
        if hit.None? {
          SelectStops(arms, next, run.context, i);
          IdleChangesNothing(was.s.tables, d, Idle(d));
          Threw(was, Proceed, Idle(d), f, Broken);
          OneArm(arms, run.context, i);
          return Raised(Broken);
        }
        if hit.value {
          r := TakeArm(f, arms, i);
          return;
        }
        i := i + 1;
      }
      SelectPasses(arms, next, run.context);
      IdleChangesNothing(was.s.tables, d, p);
      Did(was, Proceed, p, DonePc(f, next));
      AllPassed(arms, run.context);
      return Next(next);
    }

    method TakeArm(f: Frame, arms: seq<Arm>, i: nat) returns (r: Result)
      requires On(Ready(f)) && StepOf(env, run.info.workflow, f.step).node == BranchNode(arms)
      requires Takes(arms, run.context, i)
      modifies this`buffer, this`path
      ensures r == Next(Some(arms[i].goto)) && On(DonePc(f, r.next))
      ensures buffer == old(buffer) + [Ev(BranchTaken, Some(f.step), 0.0, Str(arms[i].goto))]
      ensures forall k: nat :: Takes(arms, run.context, k) ==> k == i
      ensures !Passed(arms, run.context, |arms|) && !TestRaises(arms, run.context)
    {
      ghost var was := At(Ready(f));
      ghost var d := was.o.d;
      PlansBranch(env, was.s, d, f, arms, Proceed);
      SelectTakes(arms, StepOf(env, run.info.workflow, f.step).next, run.context, i);
      ghost var p := PlanFor(env, was.s, d, Proceed);
      Emit(BranchTaken, Some(f.step), 0.0, Str(arms[i].goto));
      IdleChangesNothing(was.s.tables, d, p);
      Did(was, Proceed, p, DonePc(f, Some(arms[i].goto)));
      OneArm(arms, run.context, i);
      return Next(Some(arms[i].goto));
    }

    // ---- approvals -----------------------------------------------------------------------------------

    /** What `AwaitApproval` comes to: granted, refused, or an exception. */
    ghost predicate Settled(f: Frame, p: Purpose, granted: bool, e: Option<Fault>)
      reads this, store, external
    {
      if e.Some? then Raising(f, e.value, [])
      else if granted then On(SettledPc(env, run.info.workflow, f, p))
      else Raising(f, Refused, [])
    }

    /** The decision is in: `q` is what was done with it. */
    ghost method Decide(was: Turn, c: Choice, q: Plan, f: Frame, p: Purpose, granted: bool)
      requires Steps(env, start, path) == was && was.o.Live? && Made(was, q) && q.late == []
      requires PlanFor(env, was.s, was.o.d, c) == Settle(env, was.o.d, f, p, granted, q)
      modifies this`path, this`held, this`move, this`plan
      ensures Settled(f, p, granted, None)
    {
      SettleIs(env, was.o.d, f, p, granted, q);
      if granted {
        ghost var pc := SettledPc(env, run.info.workflow, f, p);
        GoalFree(was.s.tables, was.o.d, q, Goto(pc));
        Did(was, c, q.(goal := Goto(pc)), pc);
      } else {
        Threw(was, c, q, f, Refused);
      }
    }

    method AwaitApproval(f: Frame, p: Purpose) returns (granted: bool, e: Option<Fault>)
      requires On(Asking(f, p))
      modifies this`run, this`buffer, this`log, this`path, this`held, this`move, this`plan, store
      ensures run == old(run).(status := run.status)
      ensures Settled(f, p, granted, e)
      ensures e == Some(Paused) ==> Saved()
    {
      if sync {
        granted, e := AskNow(f, p);
      } else {
        granted, e := LookUp(f, p);
      }
    }

    /** Synchronous: request, let `approval_fn` answer, record the answer. */
    method AskNow(f: Frame, p: Purpose) returns (granted: bool, e: Option<Fault>)
      requires On(Asking(f, p)) && sync
      modifies this`run, this`buffer, this`log, this`path, this`held, this`move, this`plan, store
      ensures run == old(run).(status := run.status)
      ensures Settled(f, p, granted, e)
      ensures e == Some(Paused) ==> Saved()
    {
      ghost var was := At(Asking(f, p));
      var aid := store.CreateApproval(run.info.tenant, run.info.id, f.step);
      if aid.None? {
        Threw(was, Proceed, Idle(was.o.d), f, Broken);
        return false, Some(Broken);
      }
      run := run.(status := WaitingApproval);
      Emit(ApprovalRequested, Some(f.step), 0.0, Null);
      Did(was, Proceed, PlanAsking(env, was.s, was.o.d, f, p), Answering(f, p, aid.value));
      granted, e := Answered(f, p, aid.value);
    }

    method Answered(f: Frame, p: Purpose, aid: nat) returns (granted: bool, e: Option<Fault>)
      requires On(Answering(f, p, aid))
      modifies this`run, this`buffer, this`log, this`path, this`held, this`move, this`plan, store
      ensures run == old(run).(status := run.status)
      ensures Settled(f, p, granted, e)
      ensures e == Some(Paused) ==> Saved()
    {
      ghost var was := At(Answering(f, p, aid));
      ghost var d := was.o.d;
      var throws: bool := *;
      granted := *;
      if throws {
        Threw(was, Throw, Idle(d), f, Broken);
        return false, Some(Broken);
      }
      var ok := store.ResolveApproval(run.info.tenant, aid, granted);
      if !ok {
        Threw(was, Answer(granted), Idle(d), f, Broken);
        return false, Some(Broken);
      }
      Emit(ApprovalResolved, Some(f.step), 0.0, Bool(granted));
      run := run.(status := Running);
      ghost var acts := [Resolved(aid, granted)] + if granted then [Granted(id, run.info.id, f.step, aid)] else [];
      log := log + acts;
      Decide(was, Answer(granted),
             Idle(d).(acts := acts, op := SettleApproval(aid, granted),
                      events := [Machine.Ev(d, ApprovalResolved, Some(f.step), 0.0, Bool(granted))], status := Running),
             f, p, granted);
      return granted, None;
    }

    /** Asynchronous: the decision is made outside; without one the run pauses. */
    method LookUp(f: Frame, p: Purpose) returns (granted: bool, e: Option<Fault>)
      requires On(Asking(f, p)) && !sync
      modifies this`run, this`buffer, this`log, this`path, this`held, this`move, this`plan, store
      ensures run == old(run).(status := run.status)
      ensures Settled(f, p, granted, e)
      ensures e == Some(Paused) ==> Saved()
    {
      ghost var was := At(Asking(f, p));
      ghost var d := was.o.d;
      var i := store.LatestApproval(run.info.tenant, run.info.id, f.step);
      if i.None? {
        Did(was, Proceed, Idle(d).(goal := Goto(Requesting(f, p))), Requesting(f, p));
        e := RequestAndPause(f, p);
        return false, Some(e.value);
      }
      var status := store.approvals[i.value].status;
      if status == ApprovalPending {
        Did(was, Proceed, Idle(d).(goal := Goto(Pausing(f))), Pausing(f));
        e := Pause(f);
        return false, Some(e.value);
      }
      granted := status == Approved;
      Emit(ApprovalResolved, Some(f.step), 0.0, Bool(granted));
      ghost var acts := if granted then [Granted(id, run.info.id, f.step, i.value)] else [];
      log := log + acts;
      Decide(was, Proceed,
             Idle(d).(acts := acts, events := [Machine.Ev(d, ApprovalResolved, Some(f.step), 0.0, Bool(granted))]),
             f, p, granted);
      return granted, None;
    }

    method RequestAndPause(f: Frame, p: Purpose) returns (e: Option<Fault>)
      requires On(Requesting(f, p))
      modifies this`run, this`buffer, this`log, this`path, this`held, this`move, this`plan, store
      ensures run == old(run).(status := run.status)
      ensures e.Some? && Raising(f, e.value, [])
      ensures e == Some(Paused) ==> Saved()
    {
      ghost var was := At(Requesting(f, p));
      var aid := store.CreateApproval(run.info.tenant, run.info.id, f.step);
      if aid.None? {
        Threw(was, Proceed, Idle(was.o.d), f, Broken);
        return Some(Broken);
      }
      run := run.(status := WaitingApproval);
      Emit(ApprovalRequested, Some(f.step), 0.0, Null);
      Did(was, Proceed, PlanRequest(env, was.s, was.o.d, f, Pausing(f)), Pausing(f));
      e := Pause(f);
    }

    /** Persist the paused state, then raise the pause signal. */
    method Pause(f: Frame) returns (e: Option<Fault>)
      requires On(Pausing(f))
      modifies this`run, this`buffer, this`log, this`path, this`held, this`move, this`plan, store
      ensures run == old(run).(status := run.status)
      ensures e.Some? && Raising(f, e.value, [])
      ensures e == Some(Paused) ==> Saved()
    {
      ghost var was := At(Pausing(f));
      ghost var d := was.o.d;
      run := run.(status := WaitingApproval);
      var ok := Commit();
      assert d.buffer + [] == d.buffer;
      if ok {
        Threw(was, Proceed, Idle(d).(op := TableOp.Commit, status := WaitingApproval), f, Paused);
        return Some(Paused);
      }
      Threw(was, Proceed, Idle(d).(status := WaitingApproval), f, Broken);
      return Some(Broken);
    }

    // ---- calling a tool through its connector -------------------------------------------------------

    ghost method DidLand(was: Turn, i: nat, pc: Pc)
      requires Steps(env, start, path) == was && was.o.Live? && At(pc) == was.(s := Land(was.s, i))
      modifies this`path
      ensures On(pc)
    {
      StepsAppend(env, start, path, Lands(i));
      path := path + [Lands(i)];
    }

    /** The connector starts the operation any number of times; each time it may
        or may not be applied before the connector stops waiting. */
    method Invocations(ghost pc: Pc, step: Id, caller: Caller, t: Tool, args: Dict) returns (invoked: bool)
      requires Operates(env, run.info.workflow, pc, step, caller, t, args) && !pc.invoked && On(pc)
      modifies this`log, this`path, external
      ensures On(WithInvoked(pc, invoked))
    {
      invoked := false;
      var tries: nat := *;
      while tries > 0
        invariant On(WithInvoked(pc, invoked))
      {
        InvokeOnce(WithInvoked(pc, invoked), step, caller, t, args);
        invoked := true;
        tries := tries - 1;
      }
    }

    method InvokeOnce(ghost pc: Pc, step: Id, caller: Caller, t: Tool, args: Dict)
      requires Operates(env, run.info.workflow, pc, step, caller, t, args) && On(pc)
      modifies this`log, this`path, external
      ensures On(WithInvoked(pc, true))
    {
      ghost var was := At(pc);
      ghost var d := was.o.d;
      ghost var acts := Submit(d, step, caller, t, args);
      log := Cat(log, acts);
      InvokePlan(env, was.s, d, step, caller, t, args);
      IdleChangesNothing(was.s.tables, d, PlanFor(env, was.s, d, Invoke));
      Did(was, Invoke, PlanFor(env, was.s, d, Invoke), WithInvoked(pc, true));
      var applied: bool := *;
      if applied && t.sideEffect { Applied(WithInvoked(pc, true), step, caller, t, args); }
    }

    /** The operation just posted takes effect. */
    method Applied(ghost pc: Pc, step: Id, caller: Caller, t: Tool, args: Dict)
      requires On(pc) && t.sideEffect && log != []
      requires var a := CallArgs(run.info.id, step, caller, t.name, args);
               var act := log[|log| - 1];
               act.Posted? && act.key == OpKey(a) && act.value == t.post(a)
      modifies this`path, external
      ensures On(pc)
    {
      ghost var before := At(pc);
      var a := CallArgs(run.info.id, step, caller, t.name, args);
      var _ := external.Create(OpKey(a), t.post(a));
      DidLand(before, |log| - 1, pc);
    }

    /** The call of a tool node: its result, or a connector error. */
    method Execute(f: Frame, t: Tool, args: Dict) returns (r: Option<Json>)
      requires On(Executing(f, t.name, args, false)) && t.name in env.tools && t == env.tools[t.name].(name := t.name)
      modifies this`run, this`buffer, this`log, this`path, this`held, this`move, this`plan, external
      ensures run == old(run)
      ensures r.Some? ==> On(Recording(f, t.name, r.value))
      ensures r.None? ==> Raising(f, Connector, [])
    {
      var invoked := Invocations(Executing(f, t.name, args, false), f.step, ByNode, t, args);
      ghost var was := At(Executing(f, t.name, args, invoked));
      ghost var d := was.o.d;
      var answers: bool := *;
      var v: Json := *;
      var key := OpKey(KeyedArgs(run.info.id, f.step, t.name, args));
      if answers && invoked && (!t.sideEffect || key in external.entries) {
        if t.sideEffect { v := external.entries[key]; }
        ResultPlan(env, was.s, d, t, v);
        if !t.sideEffect { log := log + [Observed(id, run.info.id, f.step, t.name, args, run.context, v)]; }
        Did(was, Return(v), PlanFor(env, was.s, d, Return(v)), Recording(f, t.name, v));
        return Some(v);
      }
      Threw(was, FailCall, Idle(d), f, Connector);
      return None;
    }

    // ---- tool nodes -----------------------------------------------------------------------------------

    /** Record a side effect in the ledger, then book and keep the result. */
    method Book(f: Frame, t: Tool, result: Json) returns (r: Result)
      requires On(Recording(f, t.name, result)) && t.name in env.tools && t == env.tools[t.name].(name := t.name)
      modifies this`run, this`buffer, this`log, this`path, this`held, this`move, this`plan, store
      ensures run.info == old(run.info) && run.steps == old(run.steps)
      ensures r == Next(StepOf(env, run.info.workflow, f.step).next) && On(DonePc(f, r.next))
    {
      ghost var was := At(Recording(f, t.name, result));
      if t.sideEffect {
        store.RecordEffect(EffectKey(run.info.id, f.step, t.name),
                           EffectRow(run.info.id, run.info.tenant, f.step, t.name, result));
      }
      run := run.(cost := run.cost + t.cost);
      Emit(ToolResult, Some(f.step), t.cost, result);
      run := run.(context := run.context[f.step := result]);
      var next := StepOf(env, run.info.workflow, f.step).next;
      Did(was, Proceed, PlanRecording(env, was.o.d, f, t.name, result), DonePc(f, next));
      return Next(next);
    }

    /** The call was allowed or approved: execute and book it. */
    method ExecuteAndBook(f: Frame, t: Tool, args: Dict) returns (r: Result)
      requires On(Executing(f, t.name, args, false)) && t.name in env.tools && t == env.tools[t.name].(name := t.name)
      modifies this`run, this`buffer, this`log, this`path, this`held, this`move, this`plan, store, external
      ensures run.info == old(run.info) && run.steps == old(run.steps)
      ensures r.Next? ==> On(DonePc(f, r.next))
      ensures r.Raised? ==> Raising(f, r.e, [])
      ensures r != Raised(Paused)
      ensures r.Next? ==> r.next == StepOf(env, run.info.workflow, f.step).next
    {
      var result := Execute(f, t, args);
      if result.None? { return Raised(Connector); }
      r := Book(f, t, result.value);
    }

    /** A recorded effect is replayed; otherwise the policy gate decides. */
    method RunTool(f: Frame, name: string) returns (r: Result)
      requires On(Ready(f)) && StepOf(env, run.info.workflow, f.step).node == ToolNode(name)
      modifies this`run, this`buffer, this`log, this`path, this`held, this`move, this`plan, store, external
      ensures run.info == old(run.info) && run.steps == old(run.steps)
      ensures r.Next? ==> On(DonePc(f, r.next))
      ensures r.Raised? ==> Raising(f, r.e, [])
      ensures r == Raised(Paused) ==> Saved()
      ensures r.Next? ==> r.next == StepOf(env, run.info.workflow, f.step).next
    {
      ghost var was := At(Ready(f));
      ghost var d := was.o.d;
      var step := StepOf(env, run.info.workflow, f.step);
      var args := step.args(run.context);
      if name !in env.tools || args.None? {
        Threw(was, Proceed, Idle(d), f, Broken);
        return Raised(Broken);
      }
      var t := env.tools[name].(name := name);
      if t.sideEffect {
        var row := store.GetEffect(run.info.tenant, EffectKey(run.info.id, f.step, name));
        if row.Foreign? {
          Threw(was, Proceed, Idle(d), f, Broken);
          return Raised(Broken);
        }
        if row.Found? && row.result != Null {
          Emit(ToolResultReplayed, Some(f.step), 0.0, row.result);
          run := run.(context := run.context[f.step := row.result]);
          Did(was, Proceed, PlanTool(env, was.s, d, f, name), DonePc(f, step.next));
          return Next(step.next);
        }
      }
      assert PlanFor(env, was.s, d, Proceed) == PlanGate(env, d, f, t, args.value);
      r := Gated(f, t, args.value);
    }

    /** At the gate: denied, allowed, or referred to a human. */
    method Gated(f: Frame, t: Tool, args: Dict) returns (r: Result)
      requires On(Ready(f)) && t.name in env.tools && t == env.tools[t.name].(name := t.name)
      requires var d := Driver(id, sync, run, buffer, Ready(f));
               PlanFor(env, S(), d, Proceed) == PlanGate(env, d, f, t, args)
      modifies this`run, this`buffer, this`log, this`path, this`held, this`move, this`plan, store, external
      ensures run.info == old(run.info) && run.steps == old(run.steps)
      ensures r.Next? ==> On(DonePc(f, r.next))
      ensures r.Raised? ==> Raising(f, r.e, [])
      ensures r == Raised(Paused) ==> Saved()
      ensures r.Next? ==> r.next == StepOf(env, run.info.workflow, f.step).next
    {
      ghost var was := At(Ready(f));
      ghost var d := was.o.d;
      var effect := Gate(env, SystemAgent(t.name), t, args, run.context);
      ghost var act := Decided(id, run.info.id, f.step, ByNode, t.name, args, run.context, effect);
      log := log + [act];
      Emit(PolicyDecision, Some(f.step), 0.0, Str(t.name));
      ghost var p := Idle(d).(acts := [act], events := [Machine.Ev(d, PolicyDecision, Some(f.step), 0.0, Str(t.name))]);
      IdleChangesNothing(was.s.tables, d, p);
      match effect {
        case Deny =>
          Threw(was, Proceed, p, f, Refused);
          return Raised(Refused);
        case RequireApproval =>
          ghost var pc := Asking(f, ForCall(t.name, args));
          IdleChangesNothing(was.s.tables, d, p.(goal := Goto(pc)));
          Did(was, Proceed, p.(goal := Goto(pc)), pc);
          var granted, e := AwaitApproval(f, ForCall(t.name, args));
          if e.Some? { return Raised(e.value); }
          if !granted { return Raised(Refused); }
        case Allow =>
          ghost var pc := Executing(f, t.name, args, false);
          IdleChangesNothing(was.s.tables, d, p.(goal := Goto(pc)));
          Did(was, Proceed, p.(goal := Goto(pc)), pc);
      }
      r := ExecuteAndBook(f, t, args);
    }

    method RunApproval(f: Frame) returns (r: Result)
      requires On(Ready(f)) && StepOf(env, run.info.workflow, f.step).node.ApprovalNode?
      modifies this`run, this`buffer, this`log, this`path, this`held, this`move, this`plan, store
      ensures run.info == old(run.info) && run.steps == old(run.steps)
      ensures r.Next? ==> On(DonePc(f, r.next))
      ensures r.Raised? ==> Raising(f, r.e, [])
      ensures r == Raised(Paused) ==> Saved()
      ensures r.Next? ==> r.next == StepOf(env, run.info.workflow, f.step).next
    {
      ghost var was := At(Ready(f));
      Did(was, Proceed, Idle(was.o.d).(goal := Goto(Asking(f, ForNode))), Asking(f, ForNode));
      var granted, e := AwaitApproval(f, ForNode);
      if e.Some? { return Raised(e.value); }
      if !granted { return Raised(Refused); }
      return Next(StepOf(env, run.info.workflow, f.step).next);
    }

    // ---- agent nodes ----------------------------------------------------------------------------------

    /** One call the model asked for: gated, then executed; a refusal is handed
        back to the model. */
    method ExecCall(f: Frame, i: nat, ghost task: Dict, calls: seq<Call>, done: seq<CallResult>)
      returns (r: Option<CallResult>, e: Fault)
      requires On(Calls(f, i, task, calls, done)) && calls != []
      modifies this`run, this`buffer, this`log, this`path, this`held, this`move, this`plan, external
      ensures run.info == old(run.info) && run.steps == old(run.steps)
      ensures r.Some? ==> On(Calls(f, i, task, calls[1..], done + [r.value]))
      ensures r.None? ==> Raising(f, e, [])
      ensures e != Paused
    {
      ghost var was := At(Calls(f, i, task, calls, done));
      ghost var d := was.o.d;
      var call := calls[0];
      e := Broken;
      if call.tool !in env.tools {
        Threw(was, Proceed, Idle(d), f, Broken);
        return None, Broken;
      }
      var t := env.tools[call.tool].(name := call.tool);
      var agent := AgentOf(env, run.info.workflow, f);
      var effect := Gate(env, agent, t, call.args, run.context);
      log := log + [Decided(id, run.info.id, f.step, ByAgent(agent.name), t.name, call.args, run.context, effect)];
      Emit(PolicyDecision, None, 0.0, Str(call.tool));
      if effect != Allow {
        Emit(ToolDenied, None, 0.0, Str(call.tool));
        r := Some(CallResult(call.tool, false, Null));
        IdleChangesNothing(was.s.tables, d, PlanCalls(env, d, d.pc));
        Did(was, Proceed, PlanCalls(env, d, d.pc), Calls(f, i, task, calls[1..], done + [r.value]));
        return;
      }
      IdleChangesNothing(was.s.tables, d, PlanCalls(env, d, d.pc));
      Did(was, Proceed, PlanCalls(env, d, d.pc), Calling(f, i, task, calls, done, false));
      r, e := CallOut(f, i, task, calls, done, t);
    }

    method CallOut(f: Frame, i: nat, ghost task: Dict, calls: seq<Call>, done: seq<CallResult>, t: Tool)
      returns (r: Option<CallResult>, e: Fault)
      requires On(Calling(f, i, task, calls, done, false)) && calls != [] && calls[0].tool == t.name
      requires t.name in env.tools && t == env.tools[t.name].(name := t.name)
      modifies this`run, this`buffer, this`log, this`path, this`held, this`move, this`plan, external
      ensures run.info == old(run.info) && run.steps == old(run.steps)
      ensures r.Some? ==> On(Calls(f, i, task, calls[1..], done + [r.value]))
      ensures r.None? ==> Raising(f, e, [])
      ensures e != Paused
    {
      var args := calls[0].args;
      assert calls[0] == Call(t.name, args);
      e := Connector;
      var invoked := Invocations(Calling(f, i, task, calls, done, false), f.step,
                                 ByAgent(AgentOf(env, run.info.workflow, f).name), t, args);
      ghost var was := At(Calling(f, i, task, calls, done, invoked));
      ghost var d := was.o.d;
      var answers: bool := *;
      var v: Json := *;
      if answers && invoked && (!t.sideEffect || OpKey(args) in external.entries) {
        if t.sideEffect { v := external.entries[OpKey(args)]; }
        run := run.(cost := run.cost + t.cost);
        Emit(ToolResult, None, t.cost, v);
        r := Some(CallResult(t.name, true, v));
        ReturnPlan(env, was.s, d, t, v);
        Did(was, Return(v), PlanFor(env, was.s, d, Return(v)), Calls(f, i, task, calls[1..], done + [r.value]));
        return;
      }
      Threw(was, FailCall, Idle(d), f, Connector);
      return None, Connector;
    }

    /** All the calls of one answer, in order. */
    method ExecCalls(f: Frame, i: nat, ghost task: Dict, calls: seq<Call>) returns (done: seq<CallResult>, e: Option<Fault>)
      requires On(Calls(f, i, task, calls, []))
      modifies this`run, this`buffer, this`log, this`path, this`held, this`move, this`plan, external
      ensures run.info == old(run.info) && run.steps == old(run.steps)
      ensures e.None? ==> On(Calls(f, i, task, [], done))
      ensures e.Some? ==> Raising(f, e.value, [])
      ensures e != Some(Paused)
    {
      var left := calls;
      done := [];
      while left != []
        invariant run.info == old(run.info) && run.steps == old(run.steps)
        invariant On(Calls(f, i, task, left, done))
        decreases |left|
      {
        var r, fault := ExecCall(f, i, task, left, done);
        if r.None? { return [], Some(fault); }
        left, done := left[1..], done + [r.value];
      }
      e := None;
    }

    /** Ask the model, run what it asks for, until it is done or out of turns. */
    method RunAgent(f: Frame, name: string) returns (r: Result)
      requires On(Ready(f)) && StepOf(env, run.info.workflow, f.step).node == AgentNode(name)
      modifies this`run, this`buffer, this`log, this`path, this`held, this`move, this`plan, external
      ensures run.info == old(run.info) && run.steps == old(run.steps)
      ensures r.Next? ==> On(DonePc(f, r.next))
      ensures r.Raised? ==> Raising(f, r.e, [])
      ensures r != Raised(Paused)
      ensures r.Next? ==> r.next == StepOf(env, run.info.workflow, f.step).next
    {
      ghost var was := At(Ready(f));
      ghost var d := was.o.d;
      var step := StepOf(env, run.info.workflow, f.step);
      var args := step.args(run.context);
      if name !in env.agents || args.None? {
        Threw(was, Proceed, Idle(d), f, Broken);
        return Raised(Broken);
      }
      var task := if args.value == map[] then map["email" := Obj(run.info.trigger)] else args.value;
      Did(was, Proceed, Idle(d).(goal := Goto(Think(f, 0, task, []))), Think(f, 0, task, []));
      r := Converse(f, task, env.agents[name].maxSteps);
    }

    method Converse(f: Frame, task: Dict, maxSteps: nat) returns (r: Result)
      requires On(Think(f, 0, task, [])) && AgentOf(env, run.info.workflow, f).maxSteps == maxSteps
      modifies this`run, this`buffer, this`log, this`path, this`held, this`move, this`plan, external
      ensures run.info == old(run.info) && run.steps == old(run.steps)
      ensures r.Next? ==> On(DonePc(f, r.next))
      ensures r.Raised? ==> Raising(f, r.e, [])
      ensures r != Raised(Paused)
      ensures r.Next? ==> r.next == StepOf(env, run.info.workflow, f.step).next
    {
      var i, scratch := 0, [];
      while i < maxSteps
        invariant i <= maxSteps && run.info == old(run.info) && run.steps == old(run.steps)
        invariant On(Think(f, i, task, scratch))
      {
        var throws: bool := *;
        if throws {
          ghost var was := At(Think(f, i, task, scratch));
          Threw(was, Throw, Idle(was.o.d), f, Broken);
          return Raised(Broken);
        }
        var answer: Response := *;
        match answer.body {
          case Final(output) =>
            r := Conclude(f, i, task, scratch, answer);
            return;
          case ToolCalls(calls) =>
            Hear(f, i, task, scratch, answer);
            var done, e := TakeTurn(f, i, task, calls);
            if e.Some? { return Raised(e.value); }
            i, scratch := i + 1, done;
        }
      }
      ghost var was := At(Think(f, i, task, scratch));
      Threw(was, Proceed, Idle(was.o.d), f, Broken);
      return Raised(Broken);
    }

    /** The calls of one answer; their results go into the next turn. */
    method TakeTurn(f: Frame, i: nat, ghost task: Dict, calls: seq<Call>) returns (done: seq<CallResult>, e: Option<Fault>)
      requires On(Calls(f, i, task, calls, []))
      modifies this`run, this`buffer, this`log, this`path, this`held, this`move, this`plan, external
      ensures run.info == old(run.info) && run.steps == old(run.steps)
      ensures e.None? ==> On(Think(f, i + 1, task, done))
      ensures e.Some? ==> Raising(f, e.value, []) && e.value != Paused
    {
      done, e := ExecCalls(f, i, task, calls);
      if e.Some? { return; }
      ghost var was := At(Calls(f, i, task, [], done));
      Did(was, Proceed, Idle(was.o.d).(goal := Goto(Think(f, i + 1, task, done))), Think(f, i + 1, task, done));
    }

    /** Book an answer that asks for tool calls. */
    method Hear(f: Frame, i: nat, ghost task: Dict, ghost scratch: seq<CallResult>, answer: Response)
      requires On(Think(f, i, task, scratch)) && i < AgentOf(env, run.info.workflow, f).maxSteps && answer.body.ToolCalls?
      modifies this`run, this`buffer, this`log, this`path, this`held, this`move, this`plan
      ensures run.info == old(run.info) && run.steps == old(run.steps)
      ensures On(Calls(f, i, task, answer.body.calls, []))
    {
      ghost var was := At(Think(f, i, task, scratch));
      run := run.(cost := run.cost + answer.cost);
      log := log + [Heard(id, run.info.id, f.step, answer)];
      Emit(AgentMessage, None, answer.cost, Null);
      Did(was, Respond(answer), PlanThink(env, was.o.d, was.o.d.pc, Respond(answer)), Calls(f, i, task, answer.body.calls, []));
    }

    /** Book the final answer and keep its output. */
    method Conclude(f: Frame, i: nat, ghost task: Dict, ghost scratch: seq<CallResult>, answer: Response) returns (r: Result)
      requires On(Think(f, i, task, scratch)) && i < AgentOf(env, run.info.workflow, f).maxSteps && answer.body.Final?
      modifies this`run, this`buffer, this`log, this`path, this`held, this`move, this`plan
      ensures run.info == old(run.info) && run.steps == old(run.steps)
      ensures r == Next(StepOf(env, run.info.workflow, f.step).next) && On(DonePc(f, r.next))
      ensures run == old(run).(cost := old(run.cost) + answer.cost, context := old(run.context)[f.step := answer.body.output])
    {
      ghost var was := At(Think(f, i, task, scratch));
      run := run.(cost := run.cost + answer.cost);
      log := log + [Heard(id, run.info.id, f.step, answer)];
      Emit(AgentMessage, None, answer.cost, Null);
      Emit(AgentFinal, None, 0.0, answer.body.output);
      run := run.(context := run.context[f.step := answer.body.output]);
      var next := StepOf(env, run.info.workflow, f.step).next;
      Did(was, Respond(answer), PlanThink(env, was.o.d, was.o.d.pc, Respond(answer)), DonePc(f, next));
      return Next(next);
    }

    // ---- steps, retries, compensation -----------------------------------------------------------------

    method RunStep(f: Frame) returns (r: Result)
      requires On(Ready(f))
      modifies this`run, this`buffer, this`log, this`path, this`held, this`move, this`plan, store, external
      ensures run.info == old(run.info) && run.steps == old(run.steps)
      ensures r.Next? ==> On(DonePc(f, r.next))
      ensures r.Raised? ==> Raising(f, r.e, [])
      ensures r == Raised(Paused) ==> Saved()
      ensures r.Next? ==> EdgeOf(StepOf(env, run.info.workflow, f.step), run.context, r.next)
    {
      match StepOf(env, run.info.workflow, f.step).node {
        case AgentNode(name) => r := RunAgent(f, name);
        case ToolNode(name) => r := RunTool(f, name);
        case BranchNode(arms) => r := RunBranch(f, arms);
        case ApprovalNode => r := RunApproval(f);
        case TerminateNode =>
          ghost var was := At(Ready(f));
          Did(was, Proceed, Idle(was.o.d).(goal := Goto(DonePc(f, None))), DonePc(f, None));
          r := Next(None);
        case UnknownNode =>
          ghost var was := At(Ready(f));
          Threw(was, Proceed, Idle(was.o.d), f, Broken);
          r := Raised(Broken);
      }
    }

    /** A handler of the exception in flight emits an event. */
    method EmitLate(ghost f: Frame, ghost e: Fault, ghost late: seq<Event>, kind: Kind, step: Id, about: Id)
      requires Raising(f, e, late)
      modifies this`buffer
      ensures Raising(f, e, late + [Machine.Ev(held.o.d, kind, Some(step), 0.0, Str(about))])
      ensures buffer == old(buffer) + [Ev(kind, Some(step), 0.0, Str(about))]
    {
      ghost var ev := Machine.Ev(held.o.d, kind, Some(step), 0.0, Str(about));
      LateFree(held.s.tables, held.o.d, plan, late, late + [ev]);
      CatMore(if plan.op.Commit? then [] else Cat(held.o.d.buffer, plan.events), late, ev);
      Emit(kind, Some(step), 0.0, Str(about));
      assert Made(held, plan.(late := late + [ev]));
    }

    /** The exception in flight has been handled, and control goes to `pc`. */
    ghost method Handled(f: Frame, e: Fault, late: seq<Event>, pc: Pc)
      requires Raising(f, e, late) && Raise(env, held.o.d, f, e, plan) == plan.(late := late, goal := Goto(pc))
      modifies this`path
      ensures On(pc)
    {
      GoalFree(held.s.tables, held.o.d, plan.(late := late), Goto(pc));
      Did(held, move, plan.(late := late, goal := Goto(pc)), pc);
    }

    /** One attempt; a connector error is put on record. */
    method Attempt(f: Frame) returns (r: Result)
      requires On(Ready(f))
      modifies this`run, this`buffer, this`log, this`path, this`held, this`move, this`plan, store, external
      ensures run.info == old(run.info) && run.steps == old(run.steps)
      ensures r.Next? ==> On(DonePc(f, r.next))
      ensures r == Raised(Connector) ==> RetriesSpent(f)
      ensures r.Raised? && r.e != Connector ==> Raising(f, r.e, [])
      ensures r == Raised(Paused) ==> Saved()
      ensures r.Next? ==> EdgeOf(StepOf(env, run.info.workflow, f.step), run.context, r.next)
    {
      r := RunStep(f);
      if r == Raised(Connector) {
        ghost var ev := Machine.Ev(held.o.d, StepRetry, Some(f.step), 0.0, Str(f.step));
        assert [] + [ev] == [ev];
        EmitLate(f, Connector, [], StepRetry, f.step, f.step);
      }
    }

    /** Up to `maxAttempts` attempts; only connector errors are retried. */
    method RunStepWithRetry(at: Id) returns (r: Result, f: Frame)
      requires On(Ready(Frame(at, at, 1, false))) && StepOf(env, run.info.workflow, at).maxAttempts >= 1
      modifies this`run, this`buffer, this`log, this`path, this`held, this`move, this`plan, store, external
      ensures run.info == old(run.info) && run.steps == old(run.steps)
      ensures f.step == at && f.main == at && !f.comp
      ensures r.Next? ==> On(Advancing(f, r.next))
      ensures r == Raised(Connector) ==>
                f.attempt == StepOf(env, run.info.workflow, at).maxAttempts && RetriesSpent(f)
      ensures r.Raised? && r.e != Connector ==> Raising(f, r.e, [])
      ensures r == Raised(Paused) ==> Saved()
      ensures r.Next? ==> EdgeOf(StepOf(env, run.info.workflow, at), run.context, r.next)
    {
      var max := StepOf(env, run.info.workflow, at).maxAttempts;
      var attempt := 1;
      f := Frame(at, at, attempt, false);
      while true
        invariant run.info == old(run.info) && run.steps == old(run.steps)
        invariant 1 <= attempt <= max && f == Frame(at, at, attempt, false) && On(Ready(f))
        decreases max - attempt
      {
        r := Attempt(f);
        if r != Raised(Connector) || attempt == max { return; }
        Retry(f);
        attempt := attempt + 1;
        f := Frame(at, at, attempt, false);
      }
    }

    /** The last attempt failed, and the retry event is out. */
    ghost predicate RetriesSpent(f: Frame)
      reads this, store, external
    {
      held.o.Live? && Raising(f, Connector, [Machine.Ev(held.o.d, StepRetry, Some(f.step), 0.0, Str(f.step))])
    }

    ghost method Retry(f: Frame)
      requires RetriesSpent(f) && !f.comp && f.attempt < StepOf(env, run.info.workflow, f.step).maxAttempts
      modifies this`path
      ensures On(Ready(f.(attempt := f.attempt + 1)))
    {
      RaiseRetries(env, held.o.d, f, plan);
      Handled(f, Connector, [Machine.Ev(held.o.d, StepRetry, Some(f.step), 0.0, Str(f.step))],
              Ready(f.(attempt := f.attempt + 1)));
    }

    /** Announce the compensating step, if one is named that exists: it is about to be
        run, as its first attempt; otherwise the run is about to fail. */
    method Announce(f: Frame) returns (g: Option<Frame>)
      requires RetriesSpent(f) && !f.comp && f.attempt == StepOf(env, run.info.workflow, f.step).maxAttempts
      modifies this`buffer, this`path
      ensures var c := StepOf(env, run.info.workflow, f.step).compensate;
              g == if c.Some? && c.value != "" && c.value in WorkflowOf(env, run.info.workflow).steps
                   then Some(Frame(c.value, f.main, 1, true)) else None
      ensures g.Some? ==> On(Ready(g.value))
      ensures g.None? ==> On(Failing(f.main)) && buffer == old(buffer)
      ensures g.Some? ==> buffer == old(buffer) + [Ev(Compensation, Some(g.value.step), 0.0, Str(f.step))]
    {
      ghost var retry := Machine.Ev(held.o.d, StepRetry, Some(f.step), 0.0, Str(f.step));
      var c := StepOf(env, run.info.workflow, f.step).compensate;
      if c.None? || c.value == "" || c.value !in WorkflowOf(env, run.info.workflow).steps {
        Handled(f, Connector, [retry], Failing(f.main));
        return None;
      }
      EmitLate(f, Connector, [retry], Compensation, c.value, f.step);
      ghost var note := Machine.Ev(held.o.d, Compensation, Some(c.value), 0.0, Str(f.step));
      assert [retry] + [note] == [retry, note];
      g := Some(Frame(c.value, f.main, 1, true));
      Handled(f, Connector, [retry, note], Ready(g.value));
    }

    /** Run the compensating step, if one is named; whatever it raises is
        swallowed. */
    method Compensates(f: Frame)
      requires RetriesSpent(f) && !f.comp && f.attempt == StepOf(env, run.info.workflow, f.step).maxAttempts
      modifies this`run, this`buffer, this`log, this`path, this`held, this`move, this`plan, store, external
      ensures run.info == old(run.info) && run.steps == old(run.steps)
      ensures On(Failing(f.main))
    {
      var g := Announce(f);
      if g.Some? {
        var r := RunStep(g.value);
        if r.Raised? { Swallow(g.value, r.e); }
      }
    }

    method Swallow(f: Frame, e: Fault)
      requires Raising(f, e, []) && f.comp
      modifies this`buffer, this`path
      ensures On(Failing(f.main))
    {
      ghost var ev := Machine.Ev(held.o.d, CompensationFailed, Some(f.step), 0.0, Str(f.step));
      assert [] + [ev] == [ev];
      EmitLate(f, e, [], CompensationFailed, f.step, f.step);
      RaiseSwallowed(env, held.o.d, f, e, plan);
      Handled(f, e, [Machine.Ev(held.o.d, CompensationFailed, Some(f.step), 0.0, Str(f.step))], Failing(f.main));
    }

    // ---- the walk ---------------------------------------------------------------------------------------

    /** The path has come to its end. */
    ghost predicate Over(how: End)
      reads this, store, external
    {
      Steps(env, start, path) == Turn(S(), Ended(how))
    }

    ghost method Stopped(was: Turn, c: Choice, p: Plan, how: End)
      requires Steps(env, start, path) == was && was.o.Live? && PlanFor(env, was.s, was.o.d, c) == p && p.goal == Stop(how)
      requires store.T() == TablesAfter(was.s.tables, was.o.d, p)
      requires external.entries == was.s.entries && log == Cat(was.s.log, p.acts)
      modifies this`path
      ensures Over(how)
    {
      StepsAppend(env, start, path, Choose(c));
      assert was.s.log + p.acts == Cat(was.s.log, p.acts);
      path := path + [Choose(c)];
    }

    /** The exception in flight leaves the engine. */
    ghost method Escapes(f: Frame, e: Fault)
      requires Raising(f, e, []) && !f.comp && (e == Paused || e == Broken)
      modifies this`path
      ensures Over(if e == Paused then EndPaused else EndEscaped)
    {
      ghost var how := if e == Paused then EndPaused else EndEscaped;
      GoalFree(held.s.tables, held.o.d, plan, Stop(how));
      assert plan.(late := []) == plan;
      Stopped(held, move, plan.(goal := Stop(how)), how);
    }

    /** Commit FAILED. */
    method Fail(ghost pc: Pc) returns (how: End)
      requires On(pc) && PlanFor(env, S(), Driver(id, sync, run, buffer, pc), Proceed) == PlanFailed(S(), Driver(id, sync, run, buffer, pc))
      modifies this`run, this`buffer, this`log, this`path, this`held, this`move, this`plan, store
      ensures run.info == old(run.info) && Over(how)
      ensures how == EndFailed || how == EndEscaped
    {
      ghost var was := At(pc);
      run := run.(status := Failed);
      Emit(Error, None, 0.0, Null);
      AllOfMore(was.o.d.buffer, buffer[|buffer| - 1], run.info.tenant);
      var ok := Commit();
      how := if ok then EndFailed else EndEscaped;
      Stopped(was, Proceed, PlanFailed(was.s, was.o.d), how);
    }

    /** Move the cursor and commit the step; at the end of the walk, succeed. */
    method Advance(f: Frame, next: Option<Id>) returns (how: Option<End>)
      requires On(Advancing(f, next))
      modifies this`run, this`buffer, this`log, this`path, this`held, this`move, this`plan, store
      ensures run.info == old(run.info) && run.steps == old(run.steps)
      ensures how.None? ==> next.Some? && On(Top(next.value))
      ensures how.Some? ==> Over(how.value)
      ensures how != Some(EndPaused) && (how == Some(EndSucceeded) ==> Saved())
    {
      ghost var was := At(Advancing(f, next));
      ghost var d := was.o.d;
      run := run.(cursor := next);
      if next.None? {
        var result := ResultOf(run.context);
        run := run.(status := Succeeded, result := Some(result));
        Emit(RunSucceeded, None, 0.0, result);
        AllOfMore(d.buffer, buffer[|buffer| - 1], run.info.tenant);
      }
      var ok := Commit();
      if !ok {
        Stopped(was, Proceed, Idle(d).(goal := Stop(EndEscaped)), EndEscaped);
        return Some(EndEscaped);
      }
      if next.None? {
        Stopped(was, Proceed, PlanAdvancing(was.s, d, None), EndSucceeded);
        return Some(EndSucceeded);
      }
      assert d.buffer + [] == d.buffer;
      Did(was, Proceed, PlanAdvancing(was.s, d, next), Top(next.value));
      return None;
    }

    /** Enter a step: budget first, then the entry is counted and announced. */
    method Enter(at: Id) returns (how: Option<End>)
      requires On(Top(at))
      modifies this`run, this`buffer, this`log, this`path, this`held, this`move, this`plan, store
      ensures run.info == old(run.info)
      ensures var wf := WorkflowOf(env, run.info.workflow);
              how.None? ==>
                && run.steps == old(run.steps) + 1 && old(run.steps) <= wf.maxSteps
                && at in wf.steps && wf.steps[at].maxAttempts >= 1 && On(Ready(Frame(at, at, 1, false)))
      ensures how.Some? ==> Over(how.value)
      ensures how != Some(EndPaused) && how != Some(EndSucceeded)
    {
      ghost var was := At(Top(at));
      ghost var d := was.o.d;
      var wf := WorkflowOf(env, run.info.workflow);
      if at !in wf.steps {
        Stopped(was, Proceed, PlanTop(env, was.s, d, at), EndEscaped);
        return Some(EndEscaped);
      }
      if run.cost > wf.budget || run.steps > wf.maxSteps {
        var end := Fail(Top(at));
        return Some(end);
      }
      run := run.(steps := run.steps + 1);
      Emit(StateTransition, Some(at), 0.0, Str(at));
      if wf.steps[at].maxAttempts < 1 {
        Stopped(was, Proceed, PlanTop(env, was.s, d, at), EndEscaped);
        return Some(EndEscaped);
      }
      Did(was, Proceed, PlanTop(env, was.s, d, at), Ready(Frame(at, at, 1, false)));
      return None;
    }

    /** One round of the walk: enter the step, run it, commit it or fail. */
    method Round(at: Id) returns (next: Option<Id>, how: End)
      requires On(Top(at))
      modifies this`run, this`buffer, this`log, this`path, this`held, this`move, this`plan, store, external
      ensures run.info == old(run.info)
      ensures next.Some? ==>
                On(Top(next.value)) && run.steps == old(run.steps) + 1 &&
                old(run.steps) <= WorkflowOf(env, run.info.workflow).maxSteps
      ensures next.None? ==> Over(how)
      ensures next.None? && (how == EndPaused || how == EndSucceeded) ==> Saved()
    {
      how := EndEscaped;
      var end := Enter(at);
      if end.Some? { return None, end.value; }
      assert StepOf(env, run.info.workflow, at).maxAttempts >= 1;
      var r, f := RunStepWithRetry(at);
      match r {
        case Next(n) =>
          end := Advance(f, n);
          if end.Some? { return None, end.value; }
          return n, EndEscaped;
        case Raised(e) =>
          how := Abandon(f, e);
          return None, how;
      }
    }

    /** The step failed for good, refused, paused, or broke. */
    method Abandon(f: Frame, e: Fault) returns (how: End)
      requires !f.comp
      requires e == Connector ==> RetriesSpent(f) && f.attempt == StepOf(env, run.info.workflow, f.step).maxAttempts
      requires e != Connector ==> Raising(f, e, [])
      requires e == Paused ==> Saved()
      modifies this`run, this`buffer, this`log, this`path, this`held, this`move, this`plan, store, external
      ensures run.info == old(run.info)
      ensures Over(how)
      ensures how == EndPaused ==> Saved()
      ensures how != EndSucceeded
    {
      match e {
        case Paused =>
          Escapes(f, e);
          return EndPaused;
        case Broken =>
          Escapes(f, e);
          return EndEscaped;
        case Connector => Compensates(f);
        case Refused =>
          assert plan.(late := []) == plan;
          Handled(f, Refused, [], Failing(f.main));
      }
      how := Fail(Failing(f.main));
    }

    /** Walk the graph from `at`. It ends, cycles or not: every round but the
        last takes a step, and the budget allows only so many. */
    method Drive(at: Id) returns (how: End)
      requires On(Top(at))
      modifies this`run, this`buffer, this`log, this`path, this`held, this`move, this`plan, store, external
      ensures Over(how)
      ensures run.info == old(run.info) && (how == EndPaused || how == EndSucceeded ==> Saved())
    {
      var step := Some(at);
      how := EndEscaped;
      while step.Some?
        invariant run.info == old(run.info)
        invariant step.Some? ==> On(Top(step.value))
        invariant step.None? ==> Over(how) && (how == EndPaused || how == EndSucceeded ==> Saved())
        decreases step.Some?, WorkflowOf(env, run.info.workflow).maxSteps + 1 - run.steps
      {
        step, how := Round(step.value);
      }
    }

    /** Run from the cursor until the run succeeds, fails or pauses. Whatever
        happens, it is a complete path of the transition system, from a driver of
        this run to its end. */
    method Resume() returns (how: Option<End>)
      modifies this, store, external
      ensures how.None? <==> Terminal(old(run.status))
      ensures how.None? ==> run == old(run) && buffer == old(buffer) && S() == old(S())
      ensures how.Some? ==>
                && start == Turn(old(S()), Live(Driving(env, id, sync, old(run), old(buffer))))
                && Steps(env, start, path) == Turn(S(), Ended(how.value))
      ensures run.info == old(run.info) && (how == Some(EndPaused) || how == Some(EndSucceeded) ==> Saved())
    {
      if Terminal(run.status) { return None; }
      var at := if run.cursor.Some? then run.cursor.value else WorkflowOf(env, run.info.workflow).start;
      run := run.(status := Running);
      start, path := At(Top(at)), [];
      var end := Drive(at);
      how := Some(end);
    }
  }
}
