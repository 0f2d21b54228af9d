/** The service: firing triggers, resolving approvals, canceling. One call after
    the other, each drives a fresh engine; whatever is called, in whatever order,
    the store goes through a serial asynchronous run of the transition system, so
    everything proved about those holds of it. */
module Api {
  import opened Core
  import opened StoreSpec
  import opened Machine
  import opened Store
  import opened Tools
  import E = Engine
  import SD = SingleDriver
  import A = Approvals
  import EO = ExactlyOnce
  import R = Racing
  import RateLimit
  import Schedules
  import opened Books

  // ---- joining runs ----------------------------------------------------------------------------

  function ActionOf(i: nat, m: Micro): Action {
    match m
    case Choose(c) => Drive(i, c)
    case Lands(k) => Arrive(k)
  }

  /** Nothing but steps of driver `i` and operations landing. */
  ghost predicate OwnActions(acts: seq<Action>, i: nat) {
    forall k :: 0 <= k < |acts| ==> acts[k].Arrive? || (acts[k].Drive? && acts[k].d == i)
  }

  ghost function WorldAt(w: World, i: nat, t: Turn): World {
    w.(s := t.s, drivers := if t.o.Live? then w.drivers[i := t.o.d] else w.drivers - {i})
  }

  /** One driver's path is a run of the system. */
  lemma {:induction false} Lift(env: Env, w: World, i: nat, t: Turn, ms: seq<Micro>) returns (acts: seq<Action>)
    ensures Exec(env, WorldAt(w, i, t), acts) == WorldAt(w, i, Steps(env, t, ms))
    ensures SD.SerialRun(env, WorldAt(w, i, t), acts) && A.AsyncRun(acts) && OwnActions(acts, i)
    decreases ms
  {
    acts := [];
    if ms != [] && t.o.Live? {
      var a, t' := ActionOf(i, ms[0]), MicroStep(env, t, ms[0]);
      LiftOne(env, w, i, t, ms[0]);
      var rest := Lift(env, w, i, t', ms[1..]);
      acts := [a] + rest;
      assert acts[1..] == rest;
    }
  }

  lemma LiftOne(env: Env, w: World, i: nat, t: Turn, m: Micro)
    requires t.o.Live?
    ensures Next(env, WorldAt(w, i, t), ActionOf(i, m)) == WorldAt(w, i, MicroStep(env, t, m))
  {
    var w1, t' := WorldAt(w, i, t), MicroStep(env, t, m);
    if t'.o.Live? {
      assert w1.drivers[i := t'.o.d] == w.drivers[i := t'.o.d];
    } else {
      assert w1.drivers - {i} == w.drivers - {i};
    }
  }

  /** `history'` is `history`, then `launch`, then only driver `i` at work. */
  ghost predicate Continues(history: seq<Action>, launch: seq<Action>, history': seq<Action>, i: nat) {
    history + launch <= history' && OwnActions(history'[|history + launch|..], i)
  }

  ghost predicate Stored(runs: map<Id, Run>, run: Run) {
    run.info.id in runs && runs[run.info.id] == run
  }

  /** A driver that has just started drives a stored run. */
  lemma Launched(env: Env, history: seq<Action>, launch: seq<Action>, i: nat)
    ensures var w := Exec(env, Exec(env, INIT, history), launch);
            R.Inv(w) && (i in w.drivers ==> R.DriverOk(w.s.tables.runs, w.drivers[i]))
  {
    R.ExecInv(env, INIT, history);
    R.ExecInv(env, Exec(env, INIT, history), launch);
  }

  lemma KeyedRun(env: Env, history: seq<Action>, id: Id)
    ensures var runs := Exec(env, INIT, history).s.tables.runs; id in runs ==> runs[id].info.id == id
  {
    R.ExecInv(env, INIT, history);
  }

  // ---- the service -------------------------------------------------------------------------------

  datatype Answer = NoSuchThing | Limited | Denied | Answered(run: Run)

  class ApiService {
    const env: Env
    const names: map<string, Id>
    const store: SqlStore
    const external: ExternalSystem
    const limiter: RateLimit.InMemoryRateLimiter
    const show: Json -> string
    const hash: Dict -> string

    /** What has happened so far, as a run of the system. */
    ghost var log: seq<Act>
    ghost var history: seq<Action>
    ghost var drivers: nat

    ghost function W(): World
      reads this, store, external
    {
      World(Shared(store.T(), external.entries, log), map[], drivers)
    }

    ghost predicate Valid()
      reads this, store, external
    {
      Exec(env, INIT, history) == W() && SD.SerialRun(env, INIT, history) && A.AsyncRun(history)
    }

    constructor (env: Env, names: map<string, Id>, limiter: RateLimit.InMemoryRateLimiter,
                 show: Json -> string, hash: Dict -> string)
      ensures Valid() && history == [] && fresh(store) && fresh(external)
      ensures this.env == env && this.names == names && this.limiter == limiter
    {
      this.env, this.names, this.limiter, this.show, this.hash := env, names, limiter, show, hash;
      store := new SqlStore();
      external := new ExternalSystem();
      log, history, drivers := [], [], 0;
    }

    /** The history goes on with `acts`. */
    ghost method Went(acts: seq<Action>)
      requires SD.SerialRun(env, INIT, history) && A.AsyncRun(history)
      requires Exec(env, Exec(env, INIT, history), acts) == W()
      requires SD.SerialRun(env, Exec(env, INIT, history), acts) && A.AsyncRun(acts)
      modifies this`history
      ensures Valid() && history == old(history) + acts
    {
      SD.JoinRuns(env, INIT, history, acts);
      history := history + acts;
    }

    ghost method WentOn(launch: seq<Action>, acts: seq<Action>)
      requires SD.SerialRun(env, INIT, history) && A.AsyncRun(history)
      requires SD.SerialRun(env, Exec(env, INIT, history), launch) && A.AsyncRun(launch)
      requires var w := Exec(env, Exec(env, INIT, history), launch);
               SD.SerialRun(env, w, acts) && A.AsyncRun(acts) && Exec(env, w, acts) == W()
      modifies this`history
      ensures Valid() && history == old(history) + launch + acts
    {
      SD.JoinRuns(env, Exec(env, INIT, history), launch, acts);
      assert history + (launch + acts) == history + launch + acts;
      Went(launch + acts);
    }

    /** A fresh engine drives the run that `launch` put on its way. The caller gets
        the run as it is stored then, whether the engine returned or raised; and
        nothing but that driver's own run was added to the history. */
    method SafeResume(engine: E.WorkflowEngine, ghost launch: seq<Action>) returns (run: Run)
      requires engine.env == env && engine.store == store && engine.external == external
      requires !engine.sync && engine.id == drivers && !Terminal(engine.run.status)
      requires SD.SerialRun(env, INIT, history) && A.AsyncRun(history)
      requires SD.SerialRun(env, Exec(env, INIT, history), launch) && A.AsyncRun(launch)
      requires Exec(env, Exec(env, INIT, history), launch) ==
               World(engine.S(), map[drivers := Driving(env, drivers, false, engine.run, engine.buffer)], drivers + 1)
      modifies this`log, this`history, this`drivers, engine, store, external
      ensures Valid() && Continues(old(history), launch, history, old(drivers))
      ensures run.info == old(engine.run.info) && Stored(store.runs, run)
    {
      ghost var t0 := Turn(engine.S(), Live(Driving(env, drivers, false, engine.run, engine.buffer)));
      ghost var w := World(t0.s, map[], drivers + 1);
      Launched(env, history, launch, drivers);
      var how := engine.Resume();
      ghost var acts := Lift(env, w, drivers, t0, engine.path);
      ghost var none: map<nat, Driver> := map[];
      assert none - {drivers} == none && none[drivers := t0.o.d] == map[drivers := t0.o.d];
      log := engine.log;
      ghost var i := drivers;
      drivers := drivers + 1;
      assert WorldAt(w, i, Steps(env, t0, engine.path)) == W();
      R.ExecInv(env, Exec(env, Exec(env, INIT, history), launch), acts);
      WentOn(launch, acts);
      if how == Some(EndSucceeded) || how == Some(EndPaused) { return engine.run; }
      var ok, row := store.LoadRun(engine.run.info.tenant, engine.run.info.id);
      run := row.value;
    }

    ghost function FireAction(tenant: Id, wf: Id, trigger: Dict, id: Id, version: nat): Action {
      Action.Fire(id, tenant, wf, version, trigger, Schedules.DeriveKeyFrom(Schedules.KEY_FIELDS, trigger, show, hash), false)
    }

    /** Fire a workflow: the first trigger of its key creates a run and drives it,
        a duplicate gets the run it belongs to. `id` is the id generated for it. */
    method Fire(tenant: Id, name: string, trigger: Dict, id: Id, version: nat, now: real) returns (r: Answer)
      requires Valid() && limiter.window != 0.0
      modifies this`log, this`history, this`drivers, store, external, limiter
      ensures Valid()
      ensures r.NoSuchThing? <==> name !in names || names[name] !in env.workflows
      ensures r.Limited? <==>
                !r.NoSuchThing? && RateLimit.Tally(old(limiter.counts), (tenant, RateLimit.Bucket(now, limiter.window))) >= limiter.limit
      ensures r.NoSuchThing? || r.Limited? ==> history == old(history) && W() == old(W())
      ensures !r.NoSuchThing? && !r.Limited? ==>
                var a := FireAction(tenant, names[name], trigger, id, version);
                var info := NewRun(env, a).info;
                && Continues(old(history), [a], history, old(drivers))
                && if Fresh(old(store.T()), NewRun(env, a)) then
                     r.Answered? && r.run.info == info && Stored(store.runs, r.run)
                   else
                     && W() == old(W()) && history == old(history) + [a]
                     && (r.Answered? <==> (tenant, info.key) in store.keys)
                     && (r.Answered? ==>
                           && r.run.info.tenant == tenant && r.run.info.key == info.key
                           && r.run.info.id == store.keys[(tenant, info.key)] && Stored(store.runs, r.run))
    {
      if name !in names || names[name] !in env.workflows { return NoSuchThing; }
      var allowed := limiter.Allow(tenant, now);
      if !allowed { return Limited; }
      var wf := names[name];
      var key := Schedules.DeriveIdempotencyKey(trigger, show, hash);
      var run := Run(RunInfo(id, tenant, wf, version, trigger, key), Pending, Some(env.workflows[wf].start), map[], 0.0, 0, None);
      r := Admit(run, trigger, FireAction(tenant, wf, trigger, id, version));
    }

    /** A known workflow within its rate: find or create the run, and drive a new one. */
    method Admit(run: Run, trigger: Dict, ghost a: Action) returns (r: Answer)
      requires Valid() && a.Fire? && a.wf in env.workflows && !a.sync && a.trigger == trigger && run == NewRun(env, a)
      modifies this`log, this`history, this`drivers, store, external
      ensures Valid() && Continues(old(history), [a], history, old(drivers))
      ensures if Fresh(old(store.T()), run) then
                r.Answered? && r.run.info == run.info && Stored(store.runs, r.run)
              else
                var key := (run.info.tenant, run.info.key);
                && W() == old(W()) && history == old(history) + [a]
                && (r.Answered? || r.Denied?) && (r.Answered? <==> key in store.keys)
                && (r.Answered? ==>
                      && r.run.info.tenant == run.info.tenant && r.run.info.key == run.info.key
                      && r.run.info.id == store.keys[key] && Stored(store.runs, r.run))
    {
      ghost var before := W();
      var found, created := store.CreateOrGetRun(run);
      FireIs(env, before, a, run);
      OneAction(env, before, a);
      if !created {
        R.ExecInv(env, INIT, history);
        Went([a]);
        return if found.Some? then Answered(found.value) else Denied;
      }
      r := StartNew(run, trigger, a);
    }

    /** The run row has just been inserted: announce the trigger and drive. */
    method StartNew(run: Run, trigger: Dict, ghost a: Action) returns (r: Answer)
      requires SD.SerialRun(env, INIT, history) && A.AsyncRun(history) && !Terminal(run.status)
      requires SD.SerialRun(env, Exec(env, INIT, history), [a]) && A.AsyncRun([a])
      requires Exec(env, Exec(env, INIT, history), [a]) ==
               World(Shared(store.T(), external.entries, log),
                     map[drivers := Driving(env, drivers, false, run,
                           [Event(run.info.id, run.info.tenant, TriggerFired, None, 0.0, Obj(trigger))])],
                     drivers + 1)
      modifies this`log, this`history, this`drivers, store, external
      ensures Valid() && Continues(old(history), [a], history, old(drivers))
      ensures r.Answered? && r.run.info == run.info && Stored(store.runs, r.run)
    {
      var engine := new E.WorkflowEngine(env, drivers, false, store, external, run, log);
      engine.Emit(TriggerFired, None, 0.0, Obj(trigger));
      assert engine.buffer == [Event(run.info.id, run.info.tenant, TriggerFired, None, 0.0, Obj(trigger))];
      var out := SafeResume(engine, [a]);
      r := Answered(out);
    }

    /** Record the decision, then resume the run it was for. */
    method ResolveApproval(tenant: Id, id: Id, approval: nat, approved: bool) returns (r: Answer)
      requires Valid()
      modifies this`log, this`history, this`drivers, store, external
      ensures Valid()
      ensures r.Denied? <==> id in old(store.runs) && old(store.runs[id]).info.tenant != tenant
      ensures id !in old(store.runs) || r.Denied? || StoreSpec.ResolveApproval(old(store.T()), tenant, approval, approved).None? ==>
                !r.Answered? && history == old(history) && W() == old(W())
      ensures var decided := [Action.Resolve(tenant, approval, approved)];
              id in old(store.runs) && !r.Denied? && StoreSpec.ResolveApproval(old(store.T()), tenant, approval, approved).Some? ==>
                if old(store.runs[id]).info.workflow in env.workflows && !Terminal(old(store.runs[id]).status)
                then r.Answered? && Continues(old(history), decided + [Action.Start(tenant, id, false)], history, old(drivers))
                else history == old(history) + decided
      ensures r.Answered? ==>
                && id in old(store.runs) && r.run.info == old(store.runs[id]).info && Stored(store.runs, r.run)
    {
      var ok, run := store.LoadRun(tenant, id);
      if !ok { return Denied; }
      if run.None? { return NoSuchThing; }
      KeyedRun(env, history, id);
      ghost var before := W();
      ok := store.ResolveApproval(tenant, approval, approved);
      if !ok { return NoSuchThing; }
      log := log + [Resolved(approval, approved)];
      ghost var a := Action.Resolve(tenant, approval, approved);
      OneAction(env, before, a);
      Went([a]);
      if run.value.info.workflow !in env.workflows { return NoSuchThing; }
      if Terminal(run.value.status) { return Answered(run.value); }
      r := Continue(tenant, id, run.value);
    }

    /** Resume a stored run with a fresh engine. */
    method Continue(tenant: Id, id: Id, run: Run) returns (r: Answer)
      requires Valid() && id in store.runs && store.runs[id] == run && run.info.tenant == tenant
      requires run.info.workflow in env.workflows && !Terminal(run.status)
      modifies this`log, this`history, this`drivers, store, external
      ensures Valid() && Continues(old(history), [Action.Start(tenant, id, false)], history, old(drivers))
      ensures r.Answered? && r.run.info == run.info && Stored(store.runs, r.run)
    {
      ghost var before := W();
      ghost var a := Action.Start(tenant, id, false);
      var engine := new E.WorkflowEngine(env, drivers, false, store, external, run, log);
      OneAction(env, before, a);
      var out := SafeResume(engine, [a]);
      r := Answered(out);
    }

    method Cancel(tenant: Id, id: Id) returns (r: Answer)
      requires Valid()
      modifies this`history, store
      ensures Valid() && history == old(history) + [Action.Cancel(tenant, id)]
      ensures id in old(store.runs) && old(store.runs[id]).info.tenant == tenant && !Terminal(old(store.runs[id]).status) ==>
                r.Answered? && r.run.status == Canceled && r.run == old(store.runs[id]).(status := Canceled)
    {
      ghost var before := W();
      var ok, _ := store.CancelRun(tenant, id);
      ghost var a := Action.Cancel(tenant, id);
      OneAction(env, before, a);
      Went([a]);
      if !ok { return Denied; }
      var mine, run := store.LoadRun(tenant, id);
      r := if run.Some? then Answered(run.value) else NoSuchThing;
    }
  }

  /** A single action by a service without drivers at work. */
  lemma OneAction(env: Env, w: World, a: Action)
    requires w.drivers == map[]
    ensures Exec(env, w, [a]) == Next(env, w, a) && SD.SerialRun(env, w, [a])
  {
    assert [a][1..] == [];
  }

  lemma FireIs(env: Env, w: World, a: Action, run: Run)
    requires a.Fire? && a.wf in env.workflows && run == NewRun(env, a) && w.drivers == map[]
    ensures Next(env, w, a) ==
            if !Fresh(w.s.tables, run) then w
            else World(w.s.(tables := CreateRun(w.s.tables, run)),
                       map[w.nextId := Driving(env, w.nextId, a.sync, run,
                             [Event(a.id, a.tenant, TriggerFired, None, 0.0, Obj(a.trigger))])],
                       w.nextId + 1)
  {
  }

  // ---- what holds after any calls -----------------------------------------------------------------------

  /** In every state the service can be in: the books balance, terminal runs are
      closed, approvals were asked for once, and ledger, contexts and external
      entries agree. */
  lemma ServiceInvariants(env: Env, history: seq<Action>, w: World)
    requires Exec(env, INIT, history) == w && SD.SerialRun(env, INIT, history) && A.AsyncRun(history)
    ensures var t := w.s.tables;
            && (forall r :: r in t.runs ==>
                  var events := EventsOf(t.events, r);
                  && t.runs[r].cost == Sum(events) && t.runs[r].steps == Count(events)
                  && SD.ClosedBy(t.runs[r].status, events)
                  && A.Asked(env, t.approvals, t.runs[r]))
            && A.OneRowEach(t.approvals)
            && EO.LedgerAgrees(t.effects, w.s.entries) && EO.RowsAgree(env, t.runs, w.s.entries)
  {
    A.OneRequest(env, history);
    SD.ExecInv(env, INIT, history);
    EO.ExecInv(env, INIT, history);
  }
}
