/** What each kind of step does when it goes well: from the program point at which
    it is about to be run to its commit, with everything it leaves behind. */
module Laws {
  import opened Core
  import opened StoreSpec
  import opened Machine
  import EO = ExactlyOnce
  import P = Policies
  import opened Edges

  function Said(run: Run, kind: Kind, step: Option<Id>, cost: real, payload: Json): Event {
    Event(run.info.id, run.info.tenant, kind, step, cost, payload)
  }

  /** The turn of a driver like `d` elsewhere. */
  function Moved(d: Driver, s: Shared, run: Run, buffer: seq<Event>, pc: Pc): Turn {
    Turn(s, Live(Driver(d.id, d.sync, run, buffer, pc)))
  }

  lemma {:induction false} StepsCons(env: Env, t: Turn, m: Micro, ms: seq<Micro>)
    requires t.o.Live?
    ensures Steps(env, t, [m] + ms) == Steps(env, MicroStep(env, t, m), ms)
  {
    assert ([m] + ms)[1..] == ms;
  }

  // ---- a resume begins --------------------------------------------------------------------------------

  /** A known workflow fired under an id and a key that are both new: the row is
      stored, pending at the start step, and driven with the trigger's event. */
  lemma FireLaunches(env: Env, w: World, a: Action)
    requires a.Fire?
    ensures var w', t := Next(env, w, a), w.s.tables;
            if a.wf in env.workflows && a.id !in t.runs && (a.tenant, a.key) !in t.keys then
              var info := RunInfo(a.id, a.tenant, a.wf, a.version, a.trigger, a.key);
              var start := env.workflows[a.wf].start;
              var row := Run(info, Pending, Some(start), map[], 0.0, 0, None);
              && w'.s == w.s.(tables := t.(runs := t.runs[a.id := row], keys := t.keys[(a.tenant, a.key) := a.id]))
              && w'.nextId == w.nextId + 1
              && w'.drivers == w.drivers[w.nextId := Driver(w.nextId, a.sync, row.(status := Running),
                   [Event(a.id, a.tenant, TriggerFired, None, 0.0, Obj(a.trigger))], Top(start))]
            else w' == w
  {
  }

  /** A resume of the tenant's own run that is not over drives it from its cursor, or
      from the start if it has none; any other does nothing. */
  lemma StartLaunches(env: Env, w: World, tenant: Id, id: Id, sync: bool)
    ensures var w', runs := Next(env, w, Start(tenant, id, sync)), w.s.tables.runs;
            if id in runs && runs[id].info.tenant == tenant && runs[id].info.workflow in env.workflows &&
               runs[id].status !in {Succeeded, Failed, Canceled} then
              var at := if runs[id].cursor.Some? then runs[id].cursor.value else env.workflows[runs[id].info.workflow].start;
              && w'.s == w.s && w'.nextId == w.nextId + 1
              && w'.drivers == w.drivers[w.nextId := Driver(w.nextId, sync, runs[id].(status := Running), [], Top(at))]
            else w' == w
  {
  }

  // ---- entering and leaving a step ----------------------------------------------------------------

  /** Within both budgets a known step is entered: counted, announced, and about to
      be attempted for the first time. */
  lemma EntersWithinBudget(env: Env, s: Shared, d: Driver, at: Id, c: Choice)
    requires d.pc == Top(at)
    requires var wf := WorkflowOf(env, d.run.info.workflow);
             at in wf.steps && wf.steps[at].maxAttempts >= 1 && d.run.cost <= wf.budget && d.run.steps <= wf.maxSteps
    ensures DriverStep(env, s, d, c) ==
            Moved(d, s, d.run.(steps := d.run.steps + 1),
                  d.buffer + [Said(d.run, StateTransition, Some(at), 0.0, Str(at))], Ready(Frame(at, at, 1, false)))
  {
    assert s.log + [] == s.log;
    assert d.buffer + [Said(d.run, StateTransition, Some(at), 0.0, Str(at))] + [] ==
           d.buffer + [Said(d.run, StateTransition, Some(at), 0.0, Str(at))];
  }

  ghost predicate Storable(s: Shared, d: Driver) {
    && d.run.info.id in s.tables.runs && s.tables.runs[d.run.info.id].info == d.run.info
    && forall i :: 0 <= i < |d.buffer| ==> d.buffer[i].tenant == d.run.info.tenant
  }

  /** One transaction: the row becomes `run`, the events are appended, and nothing
      else changes. */
  ghost predicate Commits(s: Shared, s': Shared, run: Run, events: seq<Event>) {
    && s'.entries == s.entries && s'.log == s.log
    && s'.tables == s.tables.(runs := s.tables.runs[run.info.id := run], events := s.tables.events + events)
  }

  lemma StoresAll(s: Shared, d: Driver, e: Event)
    requires Storable(s, d) && e.tenant == d.run.info.tenant
    ensures CanCommit(s, d) && AllOf(d.buffer + [e], d.run.info.tenant) && AllOf(d.buffer + [], d.run.info.tenant)
  {
    assert d.buffer + [] == d.buffer;
  }

  /** A step that is done is committed with the cursor on its edge, and the walk goes
      on there. */
  lemma StepCommits(env: Env, s: Shared, d: Driver, f: Frame, next: Id, c: Choice)
    requires d.pc == Advancing(f, Some(next)) && Storable(s, d)
    ensures var t := DriverStep(env, s, d, c);
            && Commits(s, t.s, d.run.(cursor := Some(next)), d.buffer)
            && t.o == Live(Driver(d.id, d.sync, d.run.(cursor := Some(next)), [], Top(next)))
  {
    StoresAll(s, d, Said(d.run, Error, None, 0.0, Null));
    assert d.buffer + [] == d.buffer && s.log + [] == s.log;
  }

  /** At the end of the walk the run is committed as SUCCEEDED, without a cursor, with
      the context's `result` or else all of the context as its result, and with its
      last event. */
  lemma RunSucceeds(env: Env, s: Shared, d: Driver, f: Frame, c: Choice)
    requires d.pc == Advancing(f, None) && Storable(s, d)
    ensures var t := DriverStep(env, s, d, c);
            var result := if "result" in d.run.context then d.run.context["result"] else Obj(d.run.context);
            && t.o == Ended(EndSucceeded)
            && Commits(s, t.s, d.run.(cursor := Option.None, status := Succeeded, result := Some(result)),
                       d.buffer + [Said(d.run, RunSucceeded, None, 0.0, result)])
  {
    var result := if "result" in d.run.context then d.run.context["result"] else Obj(d.run.context);
    StoresAll(s, d, Said(d.run, RunSucceeded, None, 0.0, result));
    assert s.log + [] == s.log;
  }

  /** A run that fails, at the budget or after a step, is committed as FAILED with its
      last event and everything emitted before; cursor, context, cost and steps stay. */
  lemma RunFails(env: Env, s: Shared, d: Driver, c: Choice)
    requires Storable(s, d)
    requires || d.pc.Failing?
             || (d.pc.Top? && var wf := WorkflowOf(env, d.run.info.workflow);
                 d.pc.at in wf.steps && (d.run.cost > wf.budget || d.run.steps > wf.maxSteps))
    ensures var t := DriverStep(env, s, d, c);
            && t.o == Ended(EndFailed)
            && Commits(s, t.s, d.run.(status := Failed), d.buffer + [Said(d.run, Error, None, 0.0, Null)])
  {
    StoresAll(s, d, Said(d.run, Error, None, 0.0, Null));
    assert s.log + [] == s.log;
  }

  // ---- tool nodes -----------------------------------------------------------------------------------

  /** The step calls tool `name` with `args`, and no effect of it is on record, or one
      without a result. */
  ghost predicate Open(env: Env, s: Shared, run: Run, step: Id, name: string, args: Dict) {
    && StepOf(env, run.info.workflow, step).node == ToolNode(name) && name in env.tools
    && StepOf(env, run.info.workflow, step).args(run.context) == Some(args)
    && var k := EffectKey(run.info.id, step, name);
       env.tools[name].sideEffect && k in s.tables.effects ==>
         s.tables.effects[k].tenant == run.info.tenant && s.tables.effects[k].result == Null
  }

  /** The step calls tool `name` with `args`, and no effect of it is on record. */
  ghost predicate Unrecorded(env: Env, s: Shared, run: Run, step: Id, name: string, args: Dict) {
    && StepOf(env, run.info.workflow, step).node == ToolNode(name) && name in env.tools
    && StepOf(env, run.info.workflow, step).args(run.context) == Some(args)
    && (env.tools[name].sideEffect ==> EffectKey(run.info.id, step, name) !in s.tables.effects)
  }

  ghost function Decision(env: Env, run: Run, name: string, args: Dict): Effect
    requires name in env.tools
  {
    env.gate(P.Request(Agent("system", [name], 8), env.tools[name].(name := name), args, run.context))
  }

  /** The gate decides before anything is done: allowed calls are about to be executed,
      those that need a human about to be asked for, denied ones fail the run. */
  lemma GateFirst(env: Env, s: Shared, d: Driver, f: Frame, name: string, args: Dict, c: Choice)
    requires d.pc == Ready(f) && !f.comp && Open(env, s, d.run, f.step, name, args)
    ensures var effect := Decision(env, d.run, name, args);
            DriverStep(env, s, d, c) ==
            Moved(d, s.(log := s.log + [Decided(d.id, d.run.info.id, f.step, ByNode, name, args, d.run.context, effect)]), d.run,
                  d.buffer + [Said(d.run, PolicyDecision, Some(f.step), 0.0, Str(name))],
                  match effect
                  case Allow => Executing(f, name, args, false)
                  case RequireApproval => Asking(f, ForCall(name, args))
                  case Deny => Failing(f.main))
  {
    var ev := Said(d.run, PolicyDecision, Some(f.step), 0.0, Str(name));
    assert d.buffer + [ev] + [] == d.buffer + [ev];
  }

  /** A recorded effect is replayed: kept as the step's value, at no cost, without gate
      or execution. */
  lemma Replays(env: Env, s: Shared, d: Driver, f: Frame, name: string, args: Dict, c: Choice)
    requires d.pc == Ready(f) && !f.comp && StepOf(env, d.run.info.workflow, f.step).node == ToolNode(name)
    requires name in env.tools && env.tools[name].sideEffect
    requires StepOf(env, d.run.info.workflow, f.step).args(d.run.context) == Some(args)
    requires var k := EffectKey(d.run.info.id, f.step, name);
             k in s.tables.effects && s.tables.effects[k].tenant == d.run.info.tenant && s.tables.effects[k].result != Null
    ensures var v := s.tables.effects[EffectKey(d.run.info.id, f.step, name)].result;
            DriverStep(env, s, d, c) ==
            Moved(d, s, d.run.(context := d.run.context[f.step := v]),
                  d.buffer + [Said(d.run, ToolResultReplayed, Some(f.step), 0.0, v)],
                  Advancing(f, StepOf(env, d.run.info.workflow, f.step).next))
  {
    var v := s.tables.effects[EffectKey(d.run.info.id, f.step, name)].result;
    var ev := Said(d.run, ToolResultReplayed, Some(f.step), 0.0, v);
    assert d.buffer + [ev] + [] == d.buffer + [ev] && s.log + [] == s.log;
  }

  function PostOf(env: Env, d: Driver, step: Id, name: string, args: Dict): Act
    requires name in env.tools
  {
    Posted(d.id, d.run.info.id, step, ByNode, name, args, d.run.context, Str(EffectKey(d.run.info.id, step, name)),
           env.tools[name].post(KeyedArgs(d.run.info.id, step, name, args)))
  }

  /** Executing a mutating call posts it under the step's own key. */
  lemma Posts(env: Env, s: Shared, d: Driver, f: Frame, name: string, args: Dict, invoked: bool)
    requires d.pc == Executing(f, name, args, invoked) && name in env.tools && env.tools[name].sideEffect
    ensures DriverStep(env, s, d, Invoke) ==
            Moved(d, s.(log := s.log + [PostOf(env, d, f.step, name, args)]), d.run, d.buffer, Executing(f, name, args, true))
  {
    EO.OpKeyKeyed(d.run.info.id, f.step, name, args);
    assert d.buffer + [] + [] == d.buffer;
  }

  /** An operation that takes effect is stored under its key unless an entry is there;
      one whose key is an array or an object raises and is not stored. */
  lemma Applied(s: Shared, i: nat, k: Json, v: Json)
    requires i < |s.log| && s.log[i].Posted? && s.log[i].key == k && s.log[i].value == v
    ensures !k.Arr? && !k.Obj? ==> Land(s, i) == s.(entries := s.entries[k := if k in s.entries then s.entries[k] else v])
    ensures k.Arr? || k.Obj? ==> Land(s, i) == s
  {
  }

  lemma Collects(env: Env, s: Shared, d: Driver, f: Frame, name: string, args: Dict, v: Json)
    requires d.pc == Executing(f, name, args, true) && name in env.tools && env.tools[name].sideEffect
    requires Str(EffectKey(d.run.info.id, f.step, name)) in s.entries
    ensures DriverStep(env, s, d, Return(v)) ==
            Moved(d, s, d.run, d.buffer, Recording(f, name, s.entries[Str(EffectKey(d.run.info.id, f.step, name))]))
  {
    EO.OpKeyKeyed(d.run.info.id, f.step, name, args);
    assert d.buffer + [] + [] == d.buffer && s.log + [] == s.log;
  }

  /** The result of a call is recorded for a mutating tool that has none on record,
      booked at the tool's price on run and event alike, and kept as the value. */
  lemma Books(env: Env, s: Shared, d: Driver, f: Frame, name: string, v: Json, c: Choice)
    requires d.pc == Recording(f, name, v) && !f.comp && name in env.tools
    ensures var k := EffectKey(d.run.info.id, f.step, name);
            var price := env.tools[name].cost;
            DriverStep(env, s, d, c) ==
            Moved(d, if env.tools[name].sideEffect && k !in s.tables.effects then
                       s.(tables := s.tables.(effects :=
                            s.tables.effects[k := EffectRow(d.run.info.id, d.run.info.tenant, f.step, name, v)]))
                     else s,
                  d.run.(cost := d.run.cost + price, context := d.run.context[f.step := v]),
                  d.buffer + [Said(d.run, ToolResult, Some(f.step), price, v)],
                  Advancing(f, StepOf(env, d.run.info.workflow, f.step).next))
  {
    var ev := Said(d.run, ToolResult, Some(f.step), env.tools[name].cost, v);
    assert d.buffer + [ev] + [] == d.buffer + [ev] && s.log + [] == s.log;
  }

  /** A mutating tool node from start to commit, when the gate allows it and the
      operation is applied: the entry under its key is the one that was there, or
      what the tool makes of the step's keyed arguments; that entry is recorded,
      booked and kept, and the step goes to its edge. */
  lemma MutatingToolRuns(env: Env, s: Shared, d: Driver, f: Frame, name: string, args: Dict, v: Json)
    requires d.pc == Ready(f) && !f.comp && Unrecorded(env, s, d.run, f.step, name, args)
    requires env.tools[name].sideEffect && Decision(env, d.run, name, args) == Allow
    ensures var t := Steps(env, Turn(s, Live(d)),
                           [Choose(Proceed), Choose(Invoke), Lands(|s.log| + 1), Choose(Return(v)), Choose(Proceed)]);
            var k := EffectKey(d.run.info.id, f.step, name);
            var entry := if Str(k) in s.entries then s.entries[Str(k)]
                         else env.tools[name].post(KeyedArgs(d.run.info.id, f.step, name, args));
            && t.s.entries == s.entries[Str(k) := entry]
            && t.s.tables == s.tables.(effects :=
                 s.tables.effects[k := EffectRow(d.run.info.id, d.run.info.tenant, f.step, name, entry)])
            && t.o == Live(Driver(d.id, d.sync,
                 d.run.(cost := d.run.cost + env.tools[name].cost, context := d.run.context[f.step := entry]),
                 d.buffer + [Said(d.run, PolicyDecision, Some(f.step), 0.0, Str(name))]
                          + [Said(d.run, ToolResult, Some(f.step), env.tools[name].cost, entry)],
                 Advancing(f, StepOf(env, d.run.info.workflow, f.step).next)))
  {
    var k := Str(EffectKey(d.run.info.id, f.step, name));
    var t1, t2, t3 := GetsApplied(env, s, d, f, name, args);
    Collects(env, t3.s, t3.o.d, f, name, args, v);
    var t4 := DriverStep(env, t3.s, t3.o.d, Return(v));
    Books(env, t4.s, t4.o.d, f, name, t3.s.entries[k], Proceed);
    Chain5(env, Turn(s, Live(d)), t1, t2, t3, t4, DriverStep(env, t4.s, t4.o.d, Proceed),
           [Choose(Proceed), Choose(Invoke), Lands(|s.log| + 1), Choose(Return(v)), Choose(Proceed)]);
  }

  /** Up to where the operation is applied. */
  lemma GetsApplied(env: Env, s: Shared, d: Driver, f: Frame, name: string, args: Dict) returns (t1: Turn, t2: Turn, t3: Turn)
    requires d.pc == Ready(f) && !f.comp && Unrecorded(env, s, d.run, f.step, name, args)
    requires env.tools[name].sideEffect && Decision(env, d.run, name, args) == Allow
    ensures t1 == DriverStep(env, s, d, Proceed) && t1.o.Live? && t2 == DriverStep(env, t1.s, t1.o.d, Invoke)
    ensures t3 == t2.(s := Land(t2.s, |s.log| + 1)) && t2.o.Live?
    ensures var k := Str(EffectKey(d.run.info.id, f.step, name));
            var v := env.tools[name].post(KeyedArgs(d.run.info.id, f.step, name, args));
            && t3.s.tables == s.tables && t3.s.entries == s.entries[k := if k in s.entries then s.entries[k] else v]
            && t3.o == Live(Driver(d.id, d.sync, d.run,
                 d.buffer + [Said(d.run, PolicyDecision, Some(f.step), 0.0, Str(name))], Executing(f, name, args, true)))
  {
    var k := Str(EffectKey(d.run.info.id, f.step, name));
    GateFirst(env, s, d, f, name, args, Proceed);
    t1 := DriverStep(env, s, d, Proceed);
    Posts(env, t1.s, t1.o.d, f, name, args, false);
    t2 := DriverStep(env, t1.s, t1.o.d, Invoke);
    assert t2.s.log[|s.log| + 1] == PostOf(env, d, f.step, name, args);
    Applied(t2.s, |s.log| + 1, k, PostOf(env, d, f.step, name, args).value);
    t3 := t2.(s := Land(t2.s, |s.log| + 1));
  }

  lemma Chain5(env: Env, t: Turn, t1: Turn, t2: Turn, t3: Turn, t4: Turn, t5: Turn, ms: seq<Micro>)
    requires |ms| == 5 && t.o.Live? && t1.o.Live? && t2.o.Live? && t3.o.Live? && t4.o.Live?
    requires MicroStep(env, t, ms[0]) == t1 && MicroStep(env, t1, ms[1]) == t2 && MicroStep(env, t2, ms[2]) == t3
    requires MicroStep(env, t3, ms[3]) == t4 && MicroStep(env, t4, ms[4]) == t5
    ensures Steps(env, t, ms) == t5
  {
    StepsCons(env, t, ms[0], ms[1..]);
    StepsCons(env, t1, ms[1], ms[2..]);
    StepsCons(env, t2, ms[2], ms[3..]);
    StepsCons(env, t3, ms[3], ms[4..]);
    StepsCons(env, t4, ms[4], []);
    assert ms == [ms[0]] + ms[1..] && ms[1..] == [ms[1]] + ms[2..] && ms[2..] == [ms[2]] + ms[3..];
    assert ms[3..] == [ms[3]] + ms[4..] && ms[4..] == [ms[4]] + [];
  }

  /** A read-only tool node likewise: nothing is posted or recorded, and what the
      operation returned is booked and kept. */
  lemma ReadOnlyToolRuns(env: Env, s: Shared, d: Driver, f: Frame, name: string, args: Dict, v: Json)
    requires d.pc == Ready(f) && !f.comp && Unrecorded(env, s, d.run, f.step, name, args)
    requires !env.tools[name].sideEffect && Decision(env, d.run, name, args) == Allow
    ensures var t := Steps(env, Turn(s, Live(d)), [Choose(Proceed), Choose(Invoke), Choose(Return(v)), Choose(Proceed)]);
            && t.s.entries == s.entries && t.s.tables == s.tables
            && t.o == Live(Driver(d.id, d.sync,
                 d.run.(cost := d.run.cost + env.tools[name].cost, context := d.run.context[f.step := v]),
                 d.buffer + [Said(d.run, PolicyDecision, Some(f.step), 0.0, Str(name))]
                          + [Said(d.run, ToolResult, Some(f.step), env.tools[name].cost, v)],
                 Advancing(f, StepOf(env, d.run.info.workflow, f.step).next)))
  {
    GateFirst(env, s, d, f, name, args, Proceed);
    var t1 := DriverStep(env, s, d, Proceed);
    Observes(env, t1.s, t1.o.d, f, name, args, v);
    var t2 := DriverStep(env, t1.s, t1.o.d, Invoke);
    var t3 := DriverStep(env, t2.s, t2.o.d, Return(v));
    Books(env, t3.s, t3.o.d, f, name, v, Proceed);
    Chain4(env, Turn(s, Live(d)), t1, t2, t3, DriverStep(env, t3.s, t3.o.d, Proceed),
           [Choose(Proceed), Choose(Invoke), Choose(Return(v)), Choose(Proceed)]);
  }

  lemma Observes(env: Env, s: Shared, d: Driver, f: Frame, name: string, args: Dict, v: Json)
    requires d.pc == Executing(f, name, args, false) && name in env.tools && !env.tools[name].sideEffect
    ensures var t := DriverStep(env, s, d, Invoke);
            && t == Moved(d, s, d.run, d.buffer, Executing(f, name, args, true))
            && DriverStep(env, t.s, t.o.d, Return(v)) ==
                 Moved(d, s.(log := s.log + [Observed(d.id, d.run.info.id, f.step, name, args, d.run.context, v)]),
                       d.run, d.buffer, Recording(f, name, v))
  {
    assert d.buffer + [] + [] == d.buffer && s.log + [] == s.log;
  }

  lemma Chain4(env: Env, t: Turn, t1: Turn, t2: Turn, t3: Turn, t4: Turn, ms: seq<Micro>)
    requires |ms| == 4 && t.o.Live? && t1.o.Live? && t2.o.Live? && t3.o.Live?
    requires MicroStep(env, t, ms[0]) == t1 && MicroStep(env, t1, ms[1]) == t2 && MicroStep(env, t2, ms[2]) == t3
    requires MicroStep(env, t3, ms[3]) == t4
    ensures Steps(env, t, ms) == t4
  {
    StepsCons(env, t, ms[0], ms[1..]);
    StepsCons(env, t1, ms[1], ms[2..]);
    StepsCons(env, t2, ms[2], ms[3..]);
    StepsCons(env, t3, ms[3], []);
    assert ms == [ms[0]] + ms[1..] && ms[1..] == [ms[1]] + ms[2..] && ms[2..] == [ms[2]] + ms[3..];
    assert ms[3..] == [ms[3]] + [];
  }

  // ---- approvals ------------------------------------------------------------------------------------------

  /** Where a granted approval leads: on to the call it was for, or past its node. */
  ghost function AfterGrant(env: Env, wf: Id, f: Frame, p: Purpose): Pc {
    match p
    case ForNode => Advancing(f, StepOf(env, wf, f.step).next)
    case ForCall(tool, args) => Executing(f, tool, args, false)
  }

  /** Asynchronous, decided: an approval on record lets the run go on, a rejection
      fails it; nothing but the event and the grant is left behind. */
  lemma DecisionCounts(env: Env, s: Shared, d: Driver, f: Frame, p: Purpose, i: nat, c: Choice)
    requires d.pc == Asking(f, p) && !d.sync && !f.comp
    requires Latest(s.tables.approvals, d.run.info.tenant, d.run.info.id, f.step) == Some(i)
    requires s.tables.approvals[i].status != ApprovalPending
    ensures var granted := s.tables.approvals[i].status == Approved;
            DriverStep(env, s, d, c) ==
            Moved(d, if granted then s.(log := s.log + [Granted(d.id, d.run.info.id, f.step, i)]) else s, d.run,
                  d.buffer + [Said(d.run, ApprovalResolved, Some(f.step), 0.0, Bool(granted))],
                  if granted then AfterGrant(env, d.run.info.workflow, f, p) else Failing(f.main))
  {
    var ev := Said(d.run, ApprovalResolved, Some(f.step), 0.0, Bool(s.tables.approvals[i].status == Approved));
    assert d.buffer + [ev] + [] == d.buffer + [ev] && s.log + [] == s.log;
  }

  /** Synchronous: a row is inserted, the approver answers, the row is settled so, and
      the run goes on as RUNNING or fails. */
  lemma ApproverDecides(env: Env, s: Shared, d: Driver, f: Frame, p: Purpose, granted: bool)
    requires d.pc == Asking(f, p) && d.sync && !f.comp && d.run.info.id in s.tables.runs
    requires s.tables.runs[d.run.info.id].info.tenant == d.run.info.tenant
    ensures var t := Steps(env, Turn(s, Live(d)), [Choose(Proceed), Choose(Answer(granted))]);
            && t.s.entries == s.entries
            && t.s.tables == s.tables.(approvals := s.tables.approvals +
                 [Approval(d.run.info.id, d.run.info.tenant, f.step, if granted then Approved else Rejected)])
            && t.o == Live(Driver(d.id, d.sync, d.run.(status := Running),
                 d.buffer + [Said(d.run, ApprovalRequested, Some(f.step), 0.0, Null)]
                          + [Said(d.run, ApprovalResolved, Some(f.step), 0.0, Bool(granted))],
                 if granted then AfterGrant(env, d.run.info.workflow, f, p) else Failing(f.main)))
  {
    var n := |s.tables.approvals|;
    Requests(env, s, d, f, p);
    var t1 := DriverStep(env, s, d, Proceed);
    Settles(env, t1.s, t1.o.d, f, p, n, granted);
    StepsCons(env, Turn(s, Live(d)), Choose(Proceed), [Choose(Answer(granted))]);
    StepsCons(env, t1, Choose(Answer(granted)), []);
    assert [Choose(Proceed)] + [Choose(Answer(granted))] == [Choose(Proceed), Choose(Answer(granted))];
    assert [Choose(Answer(granted))] + [] == [Choose(Answer(granted))];
  }

  lemma Requests(env: Env, s: Shared, d: Driver, f: Frame, p: Purpose)
    requires d.pc == Asking(f, p) && d.sync && d.run.info.id in s.tables.runs
    requires s.tables.runs[d.run.info.id].info.tenant == d.run.info.tenant
    ensures DriverStep(env, s, d, Proceed) ==
            Moved(d, s.(tables := s.tables.(approvals := s.tables.approvals +
                          [Approval(d.run.info.id, d.run.info.tenant, f.step, ApprovalPending)])),
                  d.run.(status := WaitingApproval), d.buffer + [Said(d.run, ApprovalRequested, Some(f.step), 0.0, Null)],
                  Answering(f, p, |s.tables.approvals|))
  {
    var ev := Said(d.run, ApprovalRequested, Some(f.step), 0.0, Null);
    assert d.buffer + [ev] + [] == d.buffer + [ev] && s.log + [] == s.log;
  }

  lemma Settles(env: Env, s: Shared, d: Driver, f: Frame, p: Purpose, a: nat, granted: bool)
    requires d.pc == Answering(f, p, a) && !f.comp && a < |s.tables.approvals| && s.tables.approvals[a].tenant == d.run.info.tenant
    ensures var t := DriverStep(env, s, d, Answer(granted));
            && t.s.entries == s.entries
            && t.s.tables == s.tables.(approvals := s.tables.approvals[a :=
                 s.tables.approvals[a].(status := if granted then Approved else Rejected)])
            && t.o == Live(Driver(d.id, d.sync, d.run.(status := Running),
                 d.buffer + [Said(d.run, ApprovalResolved, Some(f.step), 0.0, Bool(granted))],
                 if granted then AfterGrant(env, d.run.info.workflow, f, p) else Failing(f.main)))
  {
    var ev := Said(d.run, ApprovalResolved, Some(f.step), 0.0, Bool(granted));
    assert d.buffer + [ev] + [] == d.buffer + [ev];
  }

  /** Asynchronous and never asked: one pending row is inserted for the run and step,
      the run is committed as waiting with its request, and the resume pauses. */
  lemma FirstRequestPauses(env: Env, s: Shared, d: Driver, f: Frame, p: Purpose)
    requires d.pc == Asking(f, p) && !d.sync && !f.comp && Storable(s, d)
    requires Latest(s.tables.approvals, d.run.info.tenant, d.run.info.id, f.step).None?
    ensures var t := Steps(env, Turn(s, Live(d)), [Choose(Proceed), Choose(Proceed), Choose(Proceed)]);
            && t.o == Ended(EndPaused) && t.s.entries == s.entries && t.s.log == s.log
            && t.s.tables == s.tables.(
                 approvals := s.tables.approvals + [Approval(d.run.info.id, d.run.info.tenant, f.step, ApprovalPending)],
                 runs := s.tables.runs[d.run.info.id := d.run.(status := WaitingApproval)],
                 events := s.tables.events + (d.buffer + [Said(d.run, ApprovalRequested, Some(f.step), 0.0, Null)]))
  {
    var ev := Said(d.run, ApprovalRequested, Some(f.step), 0.0, Null);
    var t1 := DriverStep(env, s, d, Proceed);
    assert d.buffer + [] + [] == d.buffer && s.log + [] == s.log;
    assert t1 == Moved(d, s, d.run, d.buffer, Requesting(f, p));
    Asks(env, s, t1.o.d, f, p);
    var t2 := DriverStep(env, s, t1.o.d, Proceed);
    Pauses(env, t2.s, t2.o.d, f);
    Chain3(env, Turn(s, Live(d)), t1, t2, DriverStep(env, t2.s, t2.o.d, Proceed),
           [Choose(Proceed), Choose(Proceed), Choose(Proceed)]);
  }

  lemma Asks(env: Env, s: Shared, d: Driver, f: Frame, p: Purpose)
    requires d.pc == Requesting(f, p) && d.run.info.id in s.tables.runs
    requires s.tables.runs[d.run.info.id].info.tenant == d.run.info.tenant
    ensures DriverStep(env, s, d, Proceed) ==
            Moved(d, s.(tables := s.tables.(approvals := s.tables.approvals +
                          [Approval(d.run.info.id, d.run.info.tenant, f.step, ApprovalPending)])),
                  d.run.(status := WaitingApproval), d.buffer + [Said(d.run, ApprovalRequested, Some(f.step), 0.0, Null)],
                  Pausing(f))
  {
    var ev := Said(d.run, ApprovalRequested, Some(f.step), 0.0, Null);
    assert d.buffer + [ev] + [] == d.buffer + [ev] && s.log + [] == s.log;
  }

  lemma Pauses(env: Env, s: Shared, d: Driver, f: Frame)
    requires d.pc == Pausing(f) && !f.comp && Storable(s, d)
    ensures var t := DriverStep(env, s, d, Proceed);
            t.o == Ended(EndPaused) && Commits(s, t.s, d.run.(status := WaitingApproval), d.buffer)
  {
    StoresAll(s, d, Said(d.run, Error, None, 0.0, Null));
    assert d.buffer + [] == d.buffer && s.log + [] == s.log;
  }

  lemma Chain3(env: Env, t: Turn, t1: Turn, t2: Turn, t3: Turn, ms: seq<Micro>)
    requires |ms| == 3 && t.o.Live? && t1.o.Live? && t2.o.Live?
    requires MicroStep(env, t, ms[0]) == t1 && MicroStep(env, t1, ms[1]) == t2 && MicroStep(env, t2, ms[2]) == t3
    ensures Steps(env, t, ms) == t3
  {
    StepsCons(env, t, ms[0], ms[1..]);
    StepsCons(env, t1, ms[1], ms[2..]);
    StepsCons(env, t2, ms[2], []);
    assert ms == [ms[0]] + ms[1..] && ms[1..] == [ms[1]] + ms[2..] && ms[2..] == [ms[2]] + [];
  }

  // ---- branch, approval and terminate nodes ---------------------------------------------------------------

  /** A branch takes the first arm that has no test or whose test is true, and says
      so; when every test is false it takes the written edge and says nothing. */
  lemma BranchRuns(env: Env, s: Shared, d: Driver, f: Frame, arms: seq<Arm>, c: Choice)
    requires d.pc == Ready(f) && !f.comp && StepOf(env, d.run.info.workflow, f.step).node == BranchNode(arms)
    ensures forall k: nat :: Takes(arms, d.run.context, k) ==>
              DriverStep(env, s, d, c) ==
              Moved(d, s, d.run, d.buffer + [Said(d.run, BranchTaken, Some(f.step), 0.0, Str(arms[k].goto))],
                    Advancing(f, Some(arms[k].goto)))
    ensures Passed(arms, d.run.context, |arms|) ==>
              DriverStep(env, s, d, c) ==
              Moved(d, s, d.run, d.buffer, Advancing(f, StepOf(env, d.run.info.workflow, f.step).next))
  {
    var next := StepOf(env, d.run.info.workflow, f.step).next;
    assert s.log + [] == s.log && d.buffer + [] + [] == d.buffer;
    forall k: nat | Takes(arms, d.run.context, k)
      ensures DriverStep(env, s, d, c) ==
              Moved(d, s, d.run, d.buffer + [Said(d.run, BranchTaken, Some(f.step), 0.0, Str(arms[k].goto))],
                    Advancing(f, Some(arms[k].goto)))
    {
      SelectTakes(arms, next, d.run.context, k);
      var ev := Said(d.run, BranchTaken, Some(f.step), 0.0, Str(arms[k].goto));
      assert d.buffer + [ev] + [] == d.buffer + [ev];
    }
    if Passed(arms, d.run.context, |arms|) { SelectPasses(arms, next, d.run.context); }
  }

  lemma ApprovalNodeAsks(env: Env, s: Shared, d: Driver, f: Frame, c: Choice)
    requires d.pc == Ready(f) && StepOf(env, d.run.info.workflow, f.step).node.ApprovalNode?
    ensures DriverStep(env, s, d, c) == Moved(d, s, d.run, d.buffer, Asking(f, ForNode))
  {
    assert s.log + [] == s.log && d.buffer + [] + [] == d.buffer;
  }

  lemma TerminateEnds(env: Env, s: Shared, d: Driver, f: Frame, c: Choice)
    requires d.pc == Ready(f) && !f.comp && StepOf(env, d.run.info.workflow, f.step).node.TerminateNode?
    ensures DriverStep(env, s, d, c) == Moved(d, s, d.run, d.buffer, Advancing(f, None))
  {
    assert s.log + [] == s.log && d.buffer + [] + [] == d.buffer;
  }

  // ---- agent nodes -------------------------------------------------------------------------------------------

  ghost predicate AgentAt(env: Env, wf: Id, step: Id, name: string) {
    StepOf(env, wf, step).node == AgentNode(name) && name in env.agents
  }

  /** An agent is given the step's arguments as its task, or the trigger if there are
      none, and starts with nothing to go on. */
  lemma AgentBegins(env: Env, s: Shared, d: Driver, f: Frame, name: string, args: Dict, c: Choice)
    requires d.pc == Ready(f) && AgentAt(env, d.run.info.workflow, f.step, name)
    requires StepOf(env, d.run.info.workflow, f.step).args(d.run.context) == Some(args)
    ensures var task := if args == map[] then map["email" := Obj(d.run.info.trigger)] else args;
            DriverStep(env, s, d, c) == Moved(d, s, d.run, d.buffer, Think(f, 0, task, []))
  {
    assert s.log + [] == s.log && d.buffer + [] + [] == d.buffer;
  }

  /** A final answer, while turns are left: its cost is booked on run and event, its
      output kept as the step's value, and the step goes to its edge. */
  lemma AgentConcludes(env: Env, s: Shared, d: Driver, f: Frame, i: nat, task: Dict, scratch: seq<CallResult>,
                       name: string, cost: real, output: Json)
    requires d.pc == Think(f, i, task, scratch) && !f.comp
    requires AgentAt(env, d.run.info.workflow, f.step, name) && i < env.agents[name].maxSteps
    ensures var answer := Response(cost, Final(output));
            DriverStep(env, s, d, Respond(answer)) ==
            Moved(d, s.(log := s.log + [Heard(d.id, d.run.info.id, f.step, answer)]),
                  d.run.(cost := d.run.cost + cost, context := d.run.context[f.step := output]),
                  d.buffer + [Said(d.run, AgentMessage, None, cost, Null), Said(d.run, AgentFinal, None, 0.0, output)],
                  Advancing(f, StepOf(env, d.run.info.workflow, f.step).next))
  {
    var evs := [Said(d.run, AgentMessage, None, cost, Null), Said(d.run, AgentFinal, None, 0.0, output)];
    assert d.buffer + evs + [] == d.buffer + evs;
  }

  /** An answer that asks for calls is booked, and the calls are next, in its order. */
  lemma AgentCalls(env: Env, s: Shared, d: Driver, f: Frame, i: nat, task: Dict, scratch: seq<CallResult>,
                   name: string, cost: real, calls: seq<Call>)
    requires d.pc == Think(f, i, task, scratch)
    requires AgentAt(env, d.run.info.workflow, f.step, name) && i < env.agents[name].maxSteps
    ensures var answer := Response(cost, ToolCalls(calls));
            DriverStep(env, s, d, Respond(answer)) ==
            Moved(d, s.(log := s.log + [Heard(d.id, d.run.info.id, f.step, answer)]), d.run.(cost := d.run.cost + cost),
                  d.buffer + [Said(d.run, AgentMessage, None, cost, Null)], Calls(f, i, task, calls, []))
  {
    var ev := Said(d.run, AgentMessage, None, cost, Null);
    assert d.buffer + [ev] + [] == d.buffer + [ev];
  }

  /** When all calls are answered, their results are what the next turn has to go on. */
  lemma AgentTurns(env: Env, s: Shared, d: Driver, f: Frame, i: nat, task: Dict, done: seq<CallResult>, c: Choice)
    requires d.pc == Calls(f, i, task, [], done)
    ensures DriverStep(env, s, d, c) == Moved(d, s, d.run, d.buffer, Think(f, i + 1, task, done))
  {
    assert s.log + [] == s.log && d.buffer + [] + [] == d.buffer;
  }

  ghost function AgentDecision(env: Env, run: Run, name: string, call: Call): Effect
    requires name in env.agents && call.tool in env.tools
  {
    env.gate(P.Request(env.agents[name], env.tools[call.tool].(name := call.tool), call.args, run.context))
  }

  /** The next call is gated for the agent: allowed ones are about to be invoked, all
      others are refused and handed back, without being invoked. */
  lemma AgentGated(env: Env, s: Shared, d: Driver, f: Frame, i: nat, task: Dict, call: Call, rest: seq<Call>,
                   done: seq<CallResult>, name: string, c: Choice)
    requires d.pc == Calls(f, i, task, [call] + rest, done)
    requires AgentAt(env, d.run.info.workflow, f.step, name) && call.tool in env.tools
    ensures var effect := AgentDecision(env, d.run, name, call);
            var log := s.log + [Decided(d.id, d.run.info.id, f.step, ByAgent(env.agents[name].name), call.tool, call.args,
                                        d.run.context, effect)];
            var asked := Said(d.run, PolicyDecision, None, 0.0, Str(call.tool));
            DriverStep(env, s, d, c) ==
            if effect == Allow then
              Moved(d, s.(log := log), d.run, d.buffer + [asked], Calling(f, i, task, [call] + rest, done, false))
            else
              Moved(d, s.(log := log), d.run, d.buffer + [asked, Said(d.run, ToolDenied, None, 0.0, Str(call.tool))],
                    Calls(f, i, task, rest, done + [CallResult(call.tool, false, Null)]))
  {
    var asked, denied := Said(d.run, PolicyDecision, None, 0.0, Str(call.tool)), Said(d.run, ToolDenied, None, 0.0, Str(call.tool));
    assert ([call] + rest)[1..] == rest;
    assert d.buffer + [asked] + [] == d.buffer + [asked] && d.buffer + [asked, denied] + [] == d.buffer + [asked, denied];
  }

  /** An allowed read-only call: what it returns is booked at the tool's price and
      becomes its result. */
  lemma AgentCallReturns(env: Env, s: Shared, d: Driver, f: Frame, i: nat, task: Dict, call: Call, rest: seq<Call>,
                         done: seq<CallResult>, v: Json)
    requires d.pc == Calling(f, i, task, [call] + rest, done, false)
    requires call.tool in env.tools && !env.tools[call.tool].sideEffect
    ensures Steps(env, Turn(s, Live(d)), [Choose(Invoke), Choose(Return(v))]) ==
            Moved(d, s, d.run.(cost := d.run.cost + env.tools[call.tool].cost),
                  d.buffer + [Said(d.run, ToolResult, None, env.tools[call.tool].cost, v)],
                  Calls(f, i, task, rest, done + [CallResult(call.tool, true, v)]))
  {
    AgentInvokes(env, s, d, f, i, task, call, rest, done);
    var t1 := DriverStep(env, s, d, Invoke);
    AgentCollects(env, s, t1.o.d, f, i, task, call, rest, done, v);
    StepsCons(env, Turn(s, Live(d)), Choose(Invoke), [Choose(Return(v))]);
    StepsCons(env, t1, Choose(Return(v)), []);
    assert [Choose(Invoke)] + [Choose(Return(v))] == [Choose(Invoke), Choose(Return(v))];
    assert [Choose(Return(v))] + [] == [Choose(Return(v))];
  }

  lemma AgentInvokes(env: Env, s: Shared, d: Driver, f: Frame, i: nat, task: Dict, call: Call, rest: seq<Call>, done: seq<CallResult>)
    requires d.pc == Calling(f, i, task, [call] + rest, done, false)
    requires call.tool in env.tools && !env.tools[call.tool].sideEffect
    ensures DriverStep(env, s, d, Invoke) == Moved(d, s, d.run, d.buffer, Calling(f, i, task, [call] + rest, done, true))
  {
    assert s.log + [] == s.log && d.buffer + [] + [] == d.buffer;
  }

  lemma AgentCollects(env: Env, s: Shared, d: Driver, f: Frame, i: nat, task: Dict, call: Call, rest: seq<Call>,
                      done: seq<CallResult>, v: Json)
    requires d.pc == Calling(f, i, task, [call] + rest, done, true)
    requires call.tool in env.tools && !env.tools[call.tool].sideEffect
    ensures DriverStep(env, s, d, Return(v)) ==
            Moved(d, s, d.run.(cost := d.run.cost + env.tools[call.tool].cost),
                  d.buffer + [Said(d.run, ToolResult, None, env.tools[call.tool].cost, v)],
                  Calls(f, i, task, rest, done + [CallResult(call.tool, true, v)]))
  {
    var ev := Said(d.run, ToolResult, None, env.tools[call.tool].cost, v);
    assert ([call] + rest)[1..] == rest;
    assert d.buffer + [ev] + [] == d.buffer + [ev] && s.log + [] == s.log;
  }

  /** An agent's mutating call goes out as the model wrote it, under the key its own
      arguments name. */
  lemma AgentPosts(env: Env, s: Shared, d: Driver, f: Frame, i: nat, task: Dict, call: Call, rest: seq<Call>,
                   done: seq<CallResult>, invoked: bool, name: string)
    requires d.pc == Calling(f, i, task, [call] + rest, done, invoked) && AgentAt(env, d.run.info.workflow, f.step, name)
    requires call.tool in env.tools && env.tools[call.tool].sideEffect
    ensures DriverStep(env, s, d, Invoke) ==
            Moved(d, s.(log := s.log + [Posted(d.id, d.run.info.id, f.step, ByAgent(env.agents[name].name), call.tool, call.args,
                                               d.run.context, OpKey(call.args), env.tools[call.tool].post(call.args))]),
                  d.run, d.buffer, Calling(f, i, task, [call] + rest, done, true))
  {
    assert d.buffer + [] + [] == d.buffer;
  }

  // ---- all the calls of one answer ------------------------------------------------------------------------------

  /** Gate, invocation and return for each call. */
  function Script(values: seq<Json>): seq<Micro> {
    if values == [] then []
    else [Choose(Proceed), Choose(Invoke), Choose(Return(values[0]))] + Script(values[1..])
  }

  function Results(calls: seq<Call>, values: seq<Json>): seq<CallResult>
    requires |calls| == |values|
  {
    seq(|calls|, k requires 0 <= k < |calls| => CallResult(calls[k].tool, true, values[k]))
  }

  ghost predicate AllAllowed(env: Env, run: Run, name: string, calls: seq<Call>) {
    name in env.agents && forall k :: 0 <= k < |calls| ==>
      calls[k].tool in env.tools && !env.tools[calls[k].tool].sideEffect && AgentDecision(env, run, name, calls[k]) == Allow
  }

  lemma {:induction false} StepsJoin(env: Env, t: Turn, a: seq<Micro>, b: seq<Micro>)
    ensures Steps(env, t, a + b) == Steps(env, Steps(env, t, a), b)
    decreases a
  {
    if a == [] {
      assert a + b == b;
    } else if t.o.Live? {
      assert (a + b)[1..] == a[1..] + b;
      StepsJoin(env, MicroStep(env, t, a[0]), a[1..], b);
    }
  }

  /** The read-only calls of an answer, all allowed, are made one by one in its order,
      and their results are collected in that order. */
  lemma {:induction false} AgentCallsRun(env: Env, s: Shared, d: Driver, f: Frame, i: nat, task: Dict, calls: seq<Call>,
                                         done: seq<CallResult>, values: seq<Json>, name: string)
    requires d.pc == Calls(f, i, task, calls, done) && AgentAt(env, d.run.info.workflow, f.step, name)
    requires |values| == |calls| && AllAllowed(env, d.run, name, calls)
    ensures var t := Steps(env, Turn(s, Live(d)), Script(values));
            && t.s.tables == s.tables && t.s.entries == s.entries && t.o.Live?
            && t.o.d.pc == Calls(f, i, task, [], done + Results(calls, values))
            && t.o.d.run == d.run.(cost := t.o.d.run.cost)
    decreases calls
  {
    if calls == [] {
      assert done + Results(calls, values) == done;
    } else {
      var call, rest := calls[0], calls[1..];
      assert calls == [call] + rest;
      var t1 := OneCallRuns(env, s, d, f, i, task, call, rest, done, values[0], name);
      var one := [Choose(Proceed), Choose(Invoke), Choose(Return(values[0]))];
      StepsJoin(env, Turn(s, Live(d)), one, Script(values[1..]));
      assert AllAllowed(env, t1.o.d.run, name, rest);
      AgentCallsRun(env, t1.s, t1.o.d, f, i, task, rest, done + [CallResult(call.tool, true, values[0])], values[1..], name);
      assert done + Results(calls, values) ==
             done + [CallResult(call.tool, true, values[0])] + Results(rest, values[1..]);
    }
  }

  lemma OneCallRuns(env: Env, s: Shared, d: Driver, f: Frame, i: nat, task: Dict, call: Call, rest: seq<Call>,
                    done: seq<CallResult>, v: Json, name: string) returns (t: Turn)
    requires d.pc == Calls(f, i, task, [call] + rest, done) && AgentAt(env, d.run.info.workflow, f.step, name)
    requires AllAllowed(env, d.run, name, [call])
    ensures t == Steps(env, Turn(s, Live(d)), [Choose(Proceed), Choose(Invoke), Choose(Return(v))])
    ensures t.s.tables == s.tables && t.s.entries == s.entries && t.o.Live?
    ensures t.o.d.pc == Calls(f, i, task, rest, done + [CallResult(call.tool, true, v)])
    ensures t.o.d.run == d.run.(cost := t.o.d.run.cost)
  {
    assert [call][0] == call;
    AgentGated(env, s, d, f, i, task, call, rest, done, name, Proceed);
    var t1 := DriverStep(env, s, d, Proceed);
    AgentCallReturns(env, t1.s, t1.o.d, f, i, task, call, rest, done, v);
    StepsCons(env, Turn(s, Live(d)), Choose(Proceed), [Choose(Invoke), Choose(Return(v))]);
    assert [Choose(Proceed)] + [Choose(Invoke), Choose(Return(v))] == [Choose(Proceed), Choose(Invoke), Choose(Return(v))];
    t := Steps(env, Turn(s, Live(d)), [Choose(Proceed), Choose(Invoke), Choose(Return(v))]);
  }
}
