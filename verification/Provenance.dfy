/** Where values come from, under every interleaving: what a context keeps for a
    step was answered for that step, and an external entry under the key of a
    workflow node was posted by that node with its own arguments. */
module Provenance {
  import opened Core
  import opened StoreSpec
  import opened Machine
  import A = Authorization
  import EO = ExactlyOnce
  import R = Racing
  import opened S = Standing

  // ---- what explains a value --------------------------------------------------------------------

  /** The model's final answer for agent step `s` of the run was `v`. */
  ghost predicate Concluded(log: seq<Act>, run: Id, s: Id, v: Json) {
    exists i :: 0 <= i < |log| && log[i].Heard? && log[i].run == run && log[i].step == s && log[i].reply.body == Final(v)
  }

  /** The step's read-only operation, called with what the step's arguments resolve
      to in a context the run had, returned `v`. */
  ghost predicate WasObserved(env: Env, log: seq<Act>, info: RunInfo, s: Id, tool: string, v: Json) {
    exists i :: 0 <= i < |log| && log[i].Observed? && log[i].run == info.id && log[i].step == s && log[i].tool == tool &&
                log[i].value == v && StepOf(env, info.workflow, s).args(log[i].ctx) == Some(log[i].args)
  }

  /** Only agents and tools leave a value, and it is the one they were answered. */
  ghost predicate ValueOk(env: Env, log: seq<Act>, info: RunInfo, s: Id, v: Json) {
    match StepOf(env, info.workflow, s).node
    case AgentNode(_) => Concluded(log, info.id, s, v)
    case ToolNode(tool) => tool in env.tools && (!env.tools[tool].sideEffect ==> WasObserved(env, log, info, s, tool, v))
    case _ => false
  }

  ghost predicate ContextOk(env: Env, log: seq<Act>, info: RunInfo, ctx: Dict) {
    forall s :: s in ctx ==> ValueOk(env, log, info, s, ctx[s])
  }

  /** The call is the one the step makes in this context. */
  ghost predicate Makes(env: Env, info: RunInfo, ctx: Dict, s: Id, tool: string, args: Dict) {
    StepOf(env, info.workflow, s).node == ToolNode(tool) && StepOf(env, info.workflow, s).args(ctx) == Some(args)
  }

  ghost predicate PcOk(env: Env, log: seq<Act>, info: RunInfo, ctx: Dict, pc: Pc) {
    match pc
    case Think(f, _, _, _) => StepOf(env, info.workflow, f.step).node.AgentNode?
    case Calls(f, _, _, _, _) => StepOf(env, info.workflow, f.step).node.AgentNode?
    case Calling(f, _, _, _, _, _) => StepOf(env, info.workflow, f.step).node.AgentNode?
    case Asking(f, p) => p.ForCall? ==> Makes(env, info, ctx, f.step, p.tool, p.args)
    case Requesting(f, p) => p.ForCall? ==> Makes(env, info, ctx, f.step, p.tool, p.args)
    case Answering(f, p, _) => p.ForCall? ==> Makes(env, info, ctx, f.step, p.tool, p.args)
    case Executing(f, tool, args, _) => Makes(env, info, ctx, f.step, tool, args)
    case Recording(f, tool, v) =>
      && StepOf(env, info.workflow, f.step).node == ToolNode(tool)
      && (tool in env.tools && !env.tools[tool].sideEffect ==> WasObserved(env, log, info, f.step, tool, v))
    case _ => true
  }

  ghost predicate DriverOk(env: Env, log: seq<Act>, d: Driver) {
    ContextOk(env, log, d.run.info, d.run.context) && PcOk(env, log, d.run.info, d.run.context, d.pc)
  }

  /** A node posts the call its step makes. */
  ghost predicate PostOk(env: Env, runs: map<Id, Run>, a: Act) {
    a.Posted? ==>
      && a.run in runs
      && (a.caller == ByNode ==> Makes(env, runs[a.run].info, a.ctx, a.step, a.tool, a.args))
  }

  ghost predicate Inv(env: Env, w: World) {
    && R.Inv(w)
    && (forall r :: r in w.s.tables.runs ==> ContextOk(env, w.s.log, w.s.tables.runs[r].info, w.s.tables.runs[r].context))
    && (forall i :: 0 <= i < |w.s.log| ==> PostOk(env, w.s.tables.runs, w.s.log[i]))
    && (forall i :: i in w.drivers ==> DriverOk(env, w.s.log, w.drivers[i]))
  }

  // ---- growing histories ----------------------------------------------------------------------------

  lemma ValueGrows(env: Env, log: seq<Act>, log': seq<Act>, info: RunInfo, s: Id, v: Json)
    requires log <= log' && ValueOk(env, log, info, s, v)
    ensures ValueOk(env, log', info, s, v)
  {
    if Concluded(log, info.id, s, v) {
      var i :| 0 <= i < |log| && log[i].Heard? && log[i].run == info.id && log[i].step == s && log[i].reply.body == Final(v);
      assert log'[i] == log[i];
    }
    var node := StepOf(env, info.workflow, s).node;
    if node.ToolNode? && WasObserved(env, log, info, s, node.tool, v) { ObservedGrows(env, log, log', info, s, node.tool, v); }
  }

  lemma ObservedGrows(env: Env, log: seq<Act>, log': seq<Act>, info: RunInfo, s: Id, tool: string, v: Json)
    requires log <= log' && WasObserved(env, log, info, s, tool, v)
    ensures WasObserved(env, log', info, s, tool, v)
  {
    var i :| 0 <= i < |log| && log[i].Observed? && log[i].run == info.id && log[i].step == s && log[i].tool == tool &&
             log[i].value == v && StepOf(env, info.workflow, s).args(log[i].ctx) == Some(log[i].args);
    assert log'[i] == log[i];
  }

  lemma ContextGrows(env: Env, log: seq<Act>, log': seq<Act>, info: RunInfo, ctx: Dict)
    requires log <= log' && ContextOk(env, log, info, ctx)
    ensures ContextOk(env, log', info, ctx)
  {
    forall s | s in ctx ensures ValueOk(env, log', info, s, ctx[s]) { ValueGrows(env, log, log', info, s, ctx[s]); }
  }

  lemma DriverGrows(env: Env, log: seq<Act>, log': seq<Act>, d: Driver)
    requires log <= log' && DriverOk(env, log, d)
    ensures DriverOk(env, log', d)
  {
    ContextGrows(env, log, log', d.run.info, d.run.context);
    if d.pc.Recording? && d.pc.tool in env.tools && !env.tools[d.pc.tool].sideEffect {
      ObservedGrows(env, log, log', d.run.info, d.pc.f.step, d.pc.tool, d.pc.result);
    }
  }

  // ---- one step ---------------------------------------------------------------------------------------

  /** What a planned step keeps, posts and goes on with is explained. */
  ghost predicate Explained(env: Env, log: seq<Act>, d: Driver, p: Plan) {
    && (p.keep.Some? ==> ValueOk(env, log + p.acts, d.run.info, p.keep.value.0, p.keep.value.1))
    && (forall i :: 0 <= i < |p.acts| && p.acts[i].Posted? ==>
          && p.acts[i].run == d.run.info.id
          && (p.acts[i].caller == ByNode ==>
                Makes(env, d.run.info, p.acts[i].ctx, p.acts[i].step, p.acts[i].tool, p.acts[i].args)))
    && (p.goal.Goto? ==> PcOk(env, log + p.acts, d.run.info, RunAfter(d, p).context, p.goal.pc))
  }

  lemma ReadyExplained(env: Env, s: Shared, d: Driver, f: Frame)
    ensures Explained(env, s.log, d, PlanReady(env, s, d, f))
  {
    var node := StepOf(env, d.run.info.workflow, f.step).node;
    if node.ToolNode? { ToolExplained(env, s, d, f, node.tool); }
  }

  lemma ToolExplained(env: Env, s: Shared, d: Driver, f: Frame, name: string)
    requires StepOf(env, d.run.info.workflow, f.step).node == ToolNode(name)
    ensures Explained(env, s.log, d, PlanTool(env, s, d, f, name))
  {
    var args := StepOf(env, d.run.info.workflow, f.step).args(d.run.context);
    if name in env.tools && args.Some? { GateExplained(env, s, d, f, env.tools[name].(name := name), args.value); }
  }

  lemma GateExplained(env: Env, s: Shared, d: Driver, f: Frame, tool: Tool, args: Dict)
    requires Makes(env, d.run.info, d.run.context, f.step, tool.name, args)
    ensures Explained(env, s.log, d, PlanGate(env, d, f, tool, args))
  {
  }

  lemma ThinkExplained(env: Env, s: Shared, d: Driver, c: Choice)
    requires d.pc.Think? && DriverOk(env, s.log, d)
    ensures Explained(env, s.log, d, PlanFor(env, s, d, c))
  {
    var p := PlanFor(env, s, d, c);
    if c.Respond? && p.keep.Some? {
      assert (s.log + p.acts)[|s.log|] == Heard(d.id, d.run.info.id, d.pc.f.step, c.r);
    }
  }

  lemma CallsExplained(env: Env, s: Shared, d: Driver, c: Choice)
    requires (d.pc.Calls? || d.pc.Calling?) && DriverOk(env, s.log, d)
    ensures Explained(env, s.log, d, PlanFor(env, s, d, c))
  {
  }

  lemma AskExplained(env: Env, s: Shared, d: Driver, c: Choice)
    requires (d.pc.Asking? || d.pc.Requesting? || d.pc.Pausing?) && DriverOk(env, s.log, d)
    ensures Explained(env, s.log, d, PlanFor(env, s, d, c))
  {
    if d.pc.Requesting? || d.pc.Pausing? { PauseExplained(env, s, d, c); }
  }

  lemma PauseExplained(env: Env, s: Shared, d: Driver, c: Choice)
    requires d.pc.Requesting? || d.pc.Pausing?
    ensures Explained(env, s.log, d, PlanFor(env, s, d, c))
  {
  }

  lemma AnswerExplained(env: Env, s: Shared, d: Driver, c: Choice)
    requires d.pc.Answering? && DriverOk(env, s.log, d)
    ensures Explained(env, s.log, d, PlanFor(env, s, d, c))
  {
  }

  lemma ExecExplained(env: Env, s: Shared, d: Driver, c: Choice)
    requires d.pc.Executing? && DriverOk(env, s.log, d)
    ensures Explained(env, s.log, d, PlanFor(env, s, d, c))
  {
    var p := PlanFor(env, s, d, c);
    if c.Return? && |p.acts| == 1 {
      var log' := s.log + p.acts;
      assert log'[|s.log|] == p.acts[0];
    }
  }

  lemma RecordExplained(env: Env, s: Shared, d: Driver, c: Choice)
    requires d.pc.Recording? && DriverOk(env, s.log, d)
    ensures Explained(env, s.log, d, PlanFor(env, s, d, c))
  {
    assert s.log + [] == s.log;
  }

  lemma PlanExplained(env: Env, s: Shared, d: Driver, c: Choice)
    requires DriverOk(env, s.log, d)
    ensures Explained(env, s.log, d, PlanFor(env, s, d, c))
  {
    if d.pc.Ready? { ReadyExplained(env, s, d, d.pc.f); }
    else if d.pc.Think? { ThinkExplained(env, s, d, c); }
    else if d.pc.Calls? || d.pc.Calling? { CallsExplained(env, s, d, c); }
    else if d.pc.Answering? { AnswerExplained(env, s, d, c); }
    else if d.pc.Asking? || d.pc.Requesting? || d.pc.Pausing? { AskExplained(env, s, d, c); }
    else if d.pc.Executing? { ExecExplained(env, s, d, c); }
    else if d.pc.Recording? { RecordExplained(env, s, d, c); }
  }

  lemma RunExplained(env: Env, log: seq<Act>, d: Driver, p: Plan)
    requires DriverOk(env, log, d) && Explained(env, log, d, p)
    ensures ContextOk(env, log + p.acts, d.run.info, RunAfter(d, p).context)
  {
    ContextGrows(env, log, log + p.acts, d.run.info, d.run.context);
  }

  // ---- every action, every run ---------------------------------------------------------------------------

  lemma PostsKept(env: Env, runs: map<Id, Run>, runs': map<Id, Run>, a: Act)
    requires R.Identities(runs, runs') && PostOk(env, runs, a)
    ensures PostOk(env, runs', a)
  {
  }

  lemma DriveRows(env: Env, w: World, i: nat, c: Choice, r: Id)
    requires Inv(env, w) && i in w.drivers && r in w.s.tables.runs
    ensures var t := DriverStep(env, w.s, w.drivers[i], c).s;
            r in t.tables.runs && ContextOk(env, t.log, t.tables.runs[r].info, t.tables.runs[r].context)
  {
    var d := w.drivers[i];
    var p := PlanFor(env, w.s, d, c);
    PlanExplained(env, w.s, d, c);
    RunExplained(env, w.s.log, d, p);
    R.StepTables(env, w.s, d, c);
    ContextGrows(env, w.s.log, w.s.log + p.acts, w.s.tables.runs[r].info, w.s.tables.runs[r].context);
  }

  lemma DrivePosts(env: Env, w: World, i: nat, c: Choice, k: nat)
    requires Inv(env, w) && i in w.drivers && k < |DriverStep(env, w.s, w.drivers[i], c).s.log|
    ensures var t := DriverStep(env, w.s, w.drivers[i], c).s; PostOk(env, t.tables.runs, t.log[k])
  {
    var d := w.drivers[i];
    var p, t := PlanFor(env, w.s, d, c), DriverStep(env, w.s, d, c).s;
    PlanExplained(env, w.s, d, c);
    R.StepTables(env, w.s, d, c);
    if k < |w.s.log| {
      assert t.log[k] == w.s.log[k];
      PostsKept(env, w.s.tables.runs, t.tables.runs, w.s.log[k]);
    } else {
      assert t.log[k] == p.acts[k - |w.s.log|];
    }
  }

  lemma DriveDriver(env: Env, s: Shared, d: Driver, c: Choice)
    requires DriverOk(env, s.log, d)
    ensures var t := DriverStep(env, s, d, c); t.o.Live? ==> DriverOk(env, t.s.log, t.o.d)
  {
    PlanExplained(env, s, d, c);
    RunExplained(env, s.log, d, PlanFor(env, s, d, c));
  }

  lemma DriveInv(env: Env, w: World, a: Action)
    requires Inv(env, w) && a.Drive?
    ensures Inv(env, Next(env, w, a))
  {
    R.NextInv(env, w, a);
    if a.d in w.drivers {
      var d := w.drivers[a.d];
      var t := DriverStep(env, w.s, d, a.c);
      R.StepTables(env, w.s, d, a.c);
      forall r | r in t.s.tables.runs ensures ContextOk(env, t.s.log, t.s.tables.runs[r].info, t.s.tables.runs[r].context) {
        DriveRows(env, w, a.d, a.c, r);
      }
      forall k | 0 <= k < |t.s.log| ensures PostOk(env, t.s.tables.runs, t.s.log[k]) { DrivePosts(env, w, a.d, a.c, k); }
      DriveDriver(env, w.s, d, a.c);
      forall j | j in w.drivers ensures DriverOk(env, t.s.log, w.drivers[j]) {
        DriverGrows(env, w.s.log, t.s.log, w.drivers[j]);
      }
      TurnTaken(env, w, a.d, t);
    }
  }

  ghost predicate Rest(env: Env, w: World) {
    && (forall r :: r in w.s.tables.runs ==> ContextOk(env, w.s.log, w.s.tables.runs[r].info, w.s.tables.runs[r].context))
    && (forall i :: 0 <= i < |w.s.log| ==> PostOk(env, w.s.tables.runs, w.s.log[i]))
    && (forall i :: i in w.drivers ==> DriverOk(env, w.s.log, w.drivers[i]))
  }

  lemma TurnTaken(env: Env, w: World, i: nat, t: Turn)
    requires i in w.drivers && Rest(env, w.(s := t.s)) && (t.o.Live? ==> DriverOk(env, t.s.log, t.o.d))
    ensures Rest(env, w.(s := t.s, drivers := if t.o.Live? then w.drivers[i := t.o.d] else w.drivers - {i}))
  {
  }

  lemma ResolveInv(env: Env, w: World, a: Action)
    requires Inv(env, w) && a.Resolve?
    ensures Inv(env, Next(env, w, a))
  {
    R.NextInv(env, w, a);
    if ResolveApproval(w.s.tables, a.tenant, a.approval, a.approved).Some? {
      var log' := w.s.log + [Resolved(a.approval, a.approved)];
      forall r | r in w.s.tables.runs ensures ContextOk(env, log', w.s.tables.runs[r].info, w.s.tables.runs[r].context) {
        ContextGrows(env, w.s.log, log', w.s.tables.runs[r].info, w.s.tables.runs[r].context);
      }
      forall j | j in w.drivers ensures DriverOk(env, log', w.drivers[j]) { DriverGrows(env, w.s.log, log', w.drivers[j]); }
    }
  }

  lemma FireInv(env: Env, w: World, a: Action)
    requires Inv(env, w) && a.Fire?
    ensures Inv(env, Next(env, w, a))
  {
    R.NextInv(env, w, a);
  }

  lemma OtherInv(env: Env, w: World, a: Action)
    requires Inv(env, w) && !a.Drive? && !a.Resolve? && !a.Fire?
    ensures Inv(env, Next(env, w, a))
  {
    R.NextInv(env, w, a);
  }

  lemma {:induction false} ExecInv(env: Env, w: World, acts: seq<Action>)
    requires Inv(env, w)
    ensures Inv(env, Exec(env, w, acts))
    decreases acts
  {
    if acts != [] {
      var a := acts[0];
      if a.Drive? { DriveInv(env, w, a); }
      else if a.Resolve? { ResolveInv(env, w, a); }
      else if a.Fire? { FireInv(env, w, a); }
      else { OtherInv(env, w, a); }
      ExecInv(env, Next(env, w, a), acts[1..]);
    }
  }

  // ---- the theorems ----------------------------------------------------------------------------------------

  /** In every reachable state, whatever a committed context keeps is under an agent
      or a tool step: for an agent the output of a final answer of the model for
      that step, for a read-only tool what its operation returned when called with
      the step's own arguments (for a mutating one, see the agreement of entries). */
  lemma ContextOrigin(env: Env, acts: seq<Action>, r: Id, s: Id)
    requires r in Exec(env, INIT, acts).s.tables.runs && s in Exec(env, INIT, acts).s.tables.runs[r].context
    ensures var sh := Exec(env, INIT, acts).s;
            var run := sh.tables.runs[r];
            match StepOf(env, run.info.workflow, s).node
            case AgentNode(_) => Concluded(sh.log, r, s, run.context[s])
            case ToolNode(tool) =>
              tool in env.tools && (!env.tools[tool].sideEffect ==> WasObserved(env, sh.log, run.info, s, tool, run.context[s]))
            case _ => false
  {
    ExecInv(env, INIT, acts);
    var sh := Exec(env, INIT, acts).s;
    assert ValueOk(env, sh.log, sh.tables.runs[r].info, s, sh.tables.runs[r].context[s]);
  }

  lemma {:induction false} PlainRows(env: Env, w: World, acts: seq<Action>)
    requires R.Inv(w) && PlainIds(acts) && forall q :: q in w.s.tables.runs ==> NoColon(q)
    ensures forall q :: q in Exec(env, w, acts).s.tables.runs ==> NoColon(q)
    decreases acts
  {
    if acts != [] {
      R.NextInv(env, w, acts[0]);
      NewRows(env, w, acts[0]);
      PlainRows(env, Next(env, w, acts[0]), acts[1..]);
    }
  }

  lemma NewRows(env: Env, w: World, a: Action)
    requires R.Inv(w)
    ensures forall q :: q in Next(env, w, a).s.tables.runs ==> q in w.s.tables.runs || (a.Fire? && q == a.id)
  {
    if a.Drive? && a.d in w.drivers { R.StepTables(env, w.s, w.drivers[a.d], a.c); }
  }

  /** The keyed arguments are the step's arguments with the key put in. */
  lemma KeyedKeeps(r: Id, s: Id, t: string, args: Dict)
    ensures var a := KeyedArgs(r, s, t, args);
            && "_idempotency_key" in a && a["_idempotency_key"] == Str(r + ":" + s + ":" + t)
            && (forall k :: k in args && k != "_idempotency_key" ==> k in a && a[k] == args[k])
            && (forall k :: k in a ==> k in args || k == "_idempotency_key")
  {
  }

  ghost predicate PlainTools(env: Env) {
    forall t :: t in env.tools ==> NoColon(t)
  }

  /** Position `i` posted `v` for step `s` of the run, with the arguments that step
      resolves to. */
  ghost predicate PostedBy(env: Env, sh: Shared, i: nat, r: Id, s: Id, t: string, v: Json) {
    && i < |sh.log| && sh.log[i].Posted? && sh.log[i].caller == ByNode
    && sh.log[i].run == r && sh.log[i].step == s && sh.log[i].tool == t && sh.log[i].value == v
    && r in sh.tables.runs && t in env.tools
    && Makes(env, sh.tables.runs[r].info, sh.log[i].ctx, s, t, sh.log[i].args)
    && v == env.tools[t].post(KeyedArgs(r, s, t, sh.log[i].args))
  }

  /** An agent's call named this key itself. */
  ghost predicate Forged(log: seq<Act>, key: Json) {
    exists i :: 0 <= i < |log| && log[i].Posted? && log[i].caller != ByNode && OpKey(log[i].args) == key
  }

  /** In every reachable state: the entry under the key of step `s` of run `r` and
      tool `t` was posted by that very step, and is what its tool makes of the
      step's own keyed arguments, unless an agent's call named that key. */
  lemma EntryOrigin(env: Env, acts: seq<Action>, r: Id, s: Id, t: string)
    requires PlainIds(acts) && PlainTools(env) && NoColon(r) && NoColon(t)
    requires Str(EffectKey(r, s, t)) in Exec(env, INIT, acts).s.entries
    ensures var sh := Exec(env, INIT, acts).s;
            var k := Str(EffectKey(r, s, t));
            Forged(sh.log, k) || exists i: nat :: PostedBy(env, sh, i, r, s, t, sh.entries[k])
  {
    var sh, k := Exec(env, INIT, acts).s, Str(EffectKey(r, s, t));
    A.ExecInv(env, INIT, acts);
    ExecInv(env, INIT, acts);
    PlainRows(env, INIT, acts);
    assert A.EntryExplained(sh.log, k, sh.entries[k]);
    var i :| 0 <= i < |sh.log| && sh.log[i].Posted? && sh.log[i].key == k && sh.log[i].value == sh.entries[k];
    assert A.Legit(env, sh.tables.approvals, sh.log, i) && PostOk(env, sh.tables.runs, sh.log[i]);
    PostedKey(env, sh.log[i], r, s, t);
    if sh.log[i].caller == ByNode { assert PostedBy(env, sh, i, r, s, t, sh.entries[k]); }
  }

  lemma PostedKey(env: Env, p: Act, r: Id, s: Id, t: string)
    requires p.Posted? && A.TrueOperation(env, p) && p.key == Str(EffectKey(r, s, t))
    requires p.caller == ByNode ==> NoColon(p.run)
    requires PlainTools(env) && NoColon(r) && NoColon(t)
    ensures p.caller == ByNode ==> p.run == r && p.step == s && p.tool == t
    ensures p.caller != ByNode ==> OpKey(p.args) == p.key
  {
    if p.caller == ByNode {
      EO.OpKeyKeyed(p.run, p.step, p.tool, p.args);
      KeysApart(p.run, r, p.step, s, p.tool, t);
    }
  }

  /** While a key has no entry: whatever lands next, an entry under the key is the
      step's own, if and only if no agent's call has named the key. */
  lemma OwnEntryIff(env: Env, acts: seq<Action>, r: Id, s: Id, t: string)
    requires PlainIds(acts) && PlainTools(env) && NoColon(r) && NoColon(t)
    requires Str(EffectKey(r, s, t)) !in Exec(env, INIT, acts).s.entries
    ensures var sh := Exec(env, INIT, acts).s;
            var k := Str(EffectKey(r, s, t));
            (forall i: nat :: k in Land(sh, i).entries ==> PostedBy(env, Land(sh, i), i, r, s, t, Land(sh, i).entries[k]))
            <==> !Forged(sh.log, k)
  {
    var sh, k := Exec(env, INIT, acts).s, Str(EffectKey(r, s, t));
    if i: nat :| k in Land(sh, i).entries && !PostedBy(env, Land(sh, i), i, r, s, t, Land(sh, i).entries[k]) {
      LandsOwn(env, acts, i, r, s, t);
    }
    if i: nat :| i < |sh.log| && sh.log[i].Posted? && sh.log[i].caller != ByNode && OpKey(sh.log[i].args) == k {
      LandsForged(env, acts, i, r, s, t);
    }
  }

  lemma LandsOwn(env: Env, acts: seq<Action>, i: nat, r: Id, s: Id, t: string)
    requires PlainIds(acts) && PlainTools(env) && NoColon(r) && NoColon(t)
    requires var sh, k := Exec(env, INIT, acts).s, Str(EffectKey(r, s, t));
             k !in sh.entries && k in Land(sh, i).entries
    ensures var sh, k := Exec(env, INIT, acts).s, Str(EffectKey(r, s, t));
            PostedBy(env, Land(sh, i), i, r, s, t, Land(sh, i).entries[k]) || Forged(sh.log, k)
  {
    var sh := Exec(env, INIT, acts).s;
    A.ExecInv(env, INIT, acts);
    ExecInv(env, INIT, acts);
    PlainRows(env, INIT, acts);
    assert A.Legit(env, sh.tables.approvals, sh.log, i) && PostOk(env, sh.tables.runs, sh.log[i]);
    PostedKey(env, sh.log[i], r, s, t);
  }

  lemma LandsForged(env: Env, acts: seq<Action>, i: nat, r: Id, s: Id, t: string)
    requires var sh, k := Exec(env, INIT, acts).s, Str(EffectKey(r, s, t));
             && i < |sh.log| && sh.log[i].Posted? && sh.log[i].caller != ByNode && OpKey(sh.log[i].args) == k
             && k !in sh.entries
    ensures var sh, k := Exec(env, INIT, acts).s, Str(EffectKey(r, s, t));
            k in Land(sh, i).entries && !PostedBy(env, Land(sh, i), i, r, s, t, Land(sh, i).entries[k])
  {
    var sh := Exec(env, INIT, acts).s;
    A.ExecInv(env, INIT, acts);
    assert A.Legit(env, sh.tables.approvals, sh.log, i);
  }

  /** Two different steps of a run whose effects are on record have two entries, each
      posted by its own step, if no agent's call named one of their keys. */
  lemma TwoStepsTwoEntries(env: Env, acts: seq<Action>, r: Id, s: Id, t: string, s': Id, t': string)
    requires PlainIds(acts) && PlainTools(env) && NoColon(r) && NoColon(t) && NoColon(t') && s != s'
    requires var sh := Exec(env, INIT, acts).s;
             var k, k' := EffectKey(r, s, t), EffectKey(r, s', t');
             && k in sh.tables.effects && k' in sh.tables.effects
             && !Forged(sh.log, Str(k)) && !Forged(sh.log, Str(k'))
    ensures var sh := Exec(env, INIT, acts).s;
            var k, k' := EffectKey(r, s, t), EffectKey(r, s', t');
            && k != k' && Str(k) in sh.entries && Str(k') in sh.entries
            && sh.tables.effects[k].result == sh.entries[Str(k)] && sh.tables.effects[k'].result == sh.entries[Str(k')]
            && (exists i: nat :: PostedBy(env, sh, i, r, s, t, sh.entries[Str(k)]))
            && (exists i: nat :: PostedBy(env, sh, i, r, s', t', sh.entries[Str(k')]))
  {
    EO.Agreement(env, acts, []);
    if EffectKey(r, s, t) == EffectKey(r, s', t') { KeysApart(r, r, s, s', t, t'); }
    EntryOrigin(env, acts, r, s, t);
    EntryOrigin(env, acts, r, s', t');
  }
}
