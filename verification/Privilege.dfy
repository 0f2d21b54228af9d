/** Least privilege over histories: with a policy engine's `check` as the gate, no
    agent ever gets to invoke a tool outside its list, read-only ones included. */
module Privilege {
  import opened Core
  import opened StoreSpec
  import opened Machine
  import P = Policies

  ghost predicate InAgent(pc: Pc) { pc.Think? || pc.Calls? || pc.Calling? }

  /** The step is one of a registered agent. */
  ghost predicate AgentStep(env: Env, wf: Id, s: Id) {
    StepOf(env, wf, s).node.AgentNode? && StepOf(env, wf, s).node.agent in env.agents
  }

  /** A driver at an agent's call has been allowed exactly this call. */
  ghost predicate DriverOk(env: Env, d: Driver) {
    && (InAgent(d.pc) ==> AgentStep(env, d.run.info.workflow, d.pc.f.step))
    && (d.pc.Calling? ==>
          && d.pc.calls != [] && d.pc.calls[0].tool in env.tools
          && var call := d.pc.calls[0];
             Gate(env, env.agents[StepOf(env, d.run.info.workflow, d.pc.f.step).node.agent],
                  env.tools[call.tool].(name := call.tool), call.args, d.run.context) == Allow)
  }

  ghost predicate Inv(env: Env, w: World) {
    forall i :: i in w.drivers ==> DriverOk(env, w.drivers[i])
  }

  ghost predicate PlanOk(env: Env, d: Driver, p: Plan) {
    p.goal.Goto? && InAgent(p.goal.pc) ==> p.keep.None? && DriverOk(env, d.(pc := p.goal.pc))
  }

  lemma ReadyOk(env: Env, s: Shared, d: Driver, f: Frame)
    ensures PlanOk(env, d, PlanReady(env, s, d, f))
  {
  }

  lemma CallsOk(env: Env, s: Shared, d: Driver, c: Choice)
    requires (d.pc.Think? || d.pc.Calls? || d.pc.Calling?) && DriverOk(env, d)
    ensures PlanOk(env, d, PlanFor(env, s, d, c))
  {
  }

  lemma AskOk(env: Env, s: Shared, d: Driver, c: Choice)
    requires d.pc.Asking? || d.pc.Requesting? || d.pc.Pausing? || d.pc.Answering?
    ensures PlanOk(env, d, PlanFor(env, s, d, c))
  {
  }

  lemma PlanFine(env: Env, s: Shared, d: Driver, c: Choice)
    requires DriverOk(env, d)
    ensures PlanOk(env, d, PlanFor(env, s, d, c))
  {
    if d.pc.Ready? { ReadyOk(env, s, d, d.pc.f); }
    else if d.pc.Think? || d.pc.Calls? || d.pc.Calling? { CallsOk(env, s, d, c); }
    else if d.pc.Asking? || d.pc.Requesting? || d.pc.Pausing? || d.pc.Answering? { AskOk(env, s, d, c); }
    else { RestOk(env, s, d, c); }
  }

  lemma RestOk(env: Env, s: Shared, d: Driver, c: Choice)
    requires d.pc.Top? || d.pc.Executing? || d.pc.Recording? || d.pc.Advancing? || d.pc.Failing?
    ensures PlanOk(env, d, PlanFor(env, s, d, c))
  {
  }

  lemma NextInv(env: Env, w: World, a: Action)
    requires Inv(env, w)
    ensures Inv(env, Next(env, w, a))
  {
    if a.Drive? && a.d in w.drivers { PlanFine(env, w.s, w.drivers[a.d], a.c); }
  }

  lemma {:induction false} ExecInv(env: Env, w: World, acts: seq<Action>)
    requires Inv(env, w)
    ensures Inv(env, Exec(env, w, acts))
    decreases acts
  {
    if acts != [] {
      NextInv(env, w, acts[0]);
      ExecInv(env, Next(env, w, acts[0]), acts[1..]);
    }
  }

  /** In every reachable state a driver that is about to invoke an agent's call, or
      has invoked it, is at a tool on that agent's list, and the first decisive
      rule is a match with ALLOW or, for a read-only tool, there is none. */
  lemma OnlyListedTools(env: Env, rules: seq<P.Rule>, acts: seq<Action>, i: nat)
    requires forall q :: env.gate(q) == P.Check(rules, q).effect
    requires i in Exec(env, INIT, acts).drivers && Exec(env, INIT, acts).drivers[i].pc.Calling?
    ensures var d := Exec(env, INIT, acts).drivers[i];
            && d.pc.calls != [] && d.pc.calls[0].tool in env.tools && AgentStep(env, d.run.info.workflow, d.pc.f.step)
            && var agent, call := env.agents[StepOf(env, d.run.info.workflow, d.pc.f.step).node.agent], d.pc.calls[0];
               var q := P.Request(agent, env.tools[call.tool].(name := call.tool), call.args, d.run.context);
               && call.tool in agent.tools
               && (|| (exists k: nat :: P.Governs(rules, k, q) && P.Ask(rules[k], q).Yes? && rules[k].effect == Allow)
                   || (!env.tools[call.tool].sideEffect && P.Silent(rules, q)))
  {
    ExecInv(env, INIT, acts);
    var d := Exec(env, INIT, acts).drivers[i];
    var call := d.pc.calls[0];
    var agent := env.agents[StepOf(env, d.run.info.workflow, d.pc.f.step).node.agent];
    var q := P.Request(agent, env.tools[call.tool].(name := call.tool), call.args, d.run.context);
    assert env.gate(q) == Allow;
    var k := P.CheckDecides(rules, q);
  }

  /** A workflow node's own call is never refused for being off the list: it is made
      by a principal whose list is that tool. */
  lemma NodesAreListed(rules: seq<P.Rule>, name: string, tool: Tool, args: Dict, ctx: Dict)
    requires tool.name == name
    ensures P.Check(rules, P.Request(SystemAgent(name), tool, args, ctx)).reason != P.NotOnAllowList
    ensures SystemAgent(name).tools == [name]
  {
    var i := P.CheckDecides(rules, P.Request(SystemAgent(name), tool, args, ctx));
  }
}
