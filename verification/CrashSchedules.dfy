/** The schedule side of crash equivalence: replays from the ledger catch up
    with the crash-free run, crashes fall back to its last commit, and every
    schedule ends like the run without crashes. */
module CrashSchedules {
  import opened Core
  import opened StoreSpec
  import opened Machine
  import opened CE = CrashEquivalence
  import EO = ExactlyOnce
  import SD = SingleDriver

  // ---- the crash-free run on its way through a mutating tool call -----------------------

  /** Inside the call of `tool` by step `step`, before its effect is recorded. */
  ghost predicate InCall(d: Driver, step: Id, tool: string) {
    match d.pc
    case Ready(f) => f.step == step && !f.comp
    case Asking(f, p) => f.step == step && !f.comp && p.ForCall? && p.tool == tool
    case Answering(f, p, _) => f.step == step && !f.comp && p.ForCall? && p.tool == tool
    case Executing(f, t, _, _) => f.step == step && !f.comp && t == tool
    case Recording(f, t, _) => f.step == step && !f.comp && t == tool
    case _ => false
  }

  ghost predicate IsCall(env: Env, wf: Id, step: Id, tool: string) {
    StepOf(env, wf, step).node == ToolNode(tool) && tool in env.tools && env.tools[tool].sideEffect
  }

  /** The call is over: its result is kept, nothing but its key was added. */
  ghost predicate Arrived(env: Env, s: Shared, d: Driver, run: Run, step: Id, key: string) {
    && Str(key) in s.entries && key in s.tables.effects
    && d.pc.Advancing? && d.pc.next == StepOf(env, run.info.workflow, step).next
    && d.run == run.(context := run.context[step := s.entries[Str(key)]], cost := d.run.cost)
  }

  ghost predicate OnlyAdds(s: Shared, s': Shared, key: string) {
    && (forall k :: k in s'.entries ==> k in s.entries || k == Str(key))
    && (forall k :: k in s'.tables.effects ==> k in s.tables.effects || k == key)
  }

  ghost predicate Continues(env: Env, a: Turn, a': Turn, step: Id, tool: string, key: string) {
    && a.o.Live? && a'.o.Live? && InCall(a'.o.d, step, tool)
    && a'.s.tables.effects == a.s.tables.effects && OnlyAdds(a.s, a'.s, key)
    && a'.o.d.run.(status := Running) == a.o.d.run.(status := Running)
  }

  ghost predicate Midway(env: Env, a: Turn, step: Id, tool: string) {
    && a.o.Live? && Side(env, a.s, a.o.d) && InCall(a.o.d, step, tool)
    && IsCall(env, a.o.d.run.info.workflow, step, tool)
    && EffectKey(a.o.d.run.info.id, step, tool) !in a.s.tables.effects
  }

  /** Where one tick of the call leads: onwards, or to a run that is lost. */
  ghost predicate Lost(t: Turn) {
    match t.o
    case Live(d) => Doomed(d.pc)
    case Ended(how) => how != EndSucceeded
  }

  lemma ReadyTick(env: Env, det: Det, a: Turn, step: Id, tool: string)
    requires Midway(env, a, step, tool) && a.o.d.pc.Ready?
    ensures var a' := Tick(env, det, a);
            Lost(a') || Continues(env, a, a', step, tool, EffectKey(a.o.d.run.info.id, step, tool))
  {
  }

  lemma AskTick(env: Env, det: Det, a: Turn, step: Id, tool: string)
    requires Midway(env, a, step, tool) && (a.o.d.pc.Asking? || a.o.d.pc.Answering?)
    ensures var a' := Tick(env, det, a);
            Lost(a') || Continues(env, a, a', step, tool, EffectKey(a.o.d.run.info.id, step, tool))
  {
  }

  lemma ExecTick(env: Env, det: Det, a: Turn, step: Id, tool: string)
    requires Midway(env, a, step, tool) && a.o.d.pc.Executing?
    ensures var a' := Tick(env, det, a);
            Lost(a') || Continues(env, a, a', step, tool, EffectKey(a.o.d.run.info.id, step, tool))
  {
    EO.OpKeyKeyed(a.o.d.run.info.id, step, tool, a.o.d.pc.args);
  }

  lemma RecordTick(env: Env, det: Det, a: Turn, step: Id, tool: string)
    requires Midway(env, a, step, tool) && a.o.d.pc.Recording? && env.tools[tool].cost >= 0.0
    ensures var a' := Tick(env, det, a);
            var key := EffectKey(a.o.d.run.info.id, step, tool);
            && a'.o.Live? && Arrived(env, a'.s, a'.o.d, a.o.d.run, step, key)
            && OnlyAdds(a.s, a'.s, key) && a'.o.d.run.cost >= a.o.d.run.cost
  {
  }

  lemma CallTick(env: Env, det: Det, a: Turn, step: Id, tool: string)
    requires Midway(env, a, step, tool) && !a.o.d.pc.Recording?
    ensures var a' := Tick(env, det, a);
            Lost(a') || Continues(env, a, a', step, tool, EffectKey(a.o.d.run.info.id, step, tool))
  {
    if a.o.d.pc.Ready? { ReadyTick(env, det, a, step, tool); }
    else if a.o.d.pc.Executing? { ExecTick(env, det, a, step, tool); }
    else { AskTick(env, det, a, step, tool); }
  }

  lemma StaysMidway(env: Env, det: Det, a: Turn, n: nat, fin: Turn, step: Id, tool: string) returns (t: Turn)
    requires Midway(env, a, step, tool) && !a.o.d.pc.Recording? && Wins(env, det, a, n, fin)
    ensures n > 0 && Wins(env, det, t, n - 1, fin) && Midway(env, t, step, tool)
    ensures Continues(env, a, t, step, tool, EffectKey(a.o.d.run.info.id, step, tool))
    ensures Linked(a.s, t.s, a.o.d.run.info.tenant) && t.o.d.run.info == a.o.d.run.info
  {
    t := Tick(env, det, a);
    WinsTick(env, det, a, n, fin);
    TickSide(env, det, a);
    CallTick(env, det, a, step, tool);
    if t.o.Live? { WinsAlive(env, det, t, n - 1, fin); }
  }

  /** The run `a` got through the call to `a'`. */
  ghost predicate Through(env: Env, a: Turn, a': Turn, step: Id, key: string) {
    && a.o.Live? && a'.o.Live? && Side(env, a'.s, a'.o.d) && Linked(a.s, a'.s, a.o.d.run.info.tenant)
    && Arrived(env, a'.s, a'.o.d, a.o.d.run.(status := Running), step, key)
    && OnlyAdds(a.s, a'.s, key) && a'.o.d.run.cost >= a.o.d.run.cost
  }

  lemma RecordThrough(env: Env, det: Det, a: Turn, n: nat, fin: Turn, step: Id, tool: string) returns (a': Turn)
    requires Midway(env, a, step, tool) && a.o.d.pc.Recording? && env.tools[tool].cost >= 0.0
    requires Wins(env, det, a, n, fin)
    ensures n > 0 && Wins(env, det, a', n - 1, fin)
    ensures Through(env, a, a', step, EffectKey(a.o.d.run.info.id, step, tool))
  {
    a' := Tick(env, det, a);
    WinsTick(env, det, a, n, fin);
    TickSide(env, det, a);
    RecordTick(env, det, a, step, tool);
  }

  /** How a call goes on to its end: the states it passes, from `a` to where its
      effect is about to be recorded. */
  lemma {:induction false} ReachesRecord(env: Env, det: Det, a: Turn, n: nat, fin: Turn, step: Id, tool: string)
    returns (t: Turn, m: nat)
    requires Midway(env, a, step, tool) && Wins(env, det, a, n, fin)
    ensures m <= n && Wins(env, det, t, m, fin) && Midway(env, t, step, tool) && t.o.d.pc.Recording?
    ensures Onward(a, t, EffectKey(a.o.d.run.info.id, step, tool))
    decreases n
  {
    t, m := a, n;
    if !a.o.d.pc.Recording? {
      var a1 := StaysMidway(env, det, a, n, fin, step, tool);
      t, m := ReachesRecord(env, det, a1, n - 1, fin, step, tool);
      OnwardTrans(env, a, a1, t, step, tool, EffectKey(a.o.d.run.info.id, step, tool));
    }
  }

  /** Further on in the same call, nothing but its entry added. */
  ghost predicate Onward(a: Turn, t: Turn, key: string) {
    && a.o.Live? && t.o.Live? && t.s.tables.effects == a.s.tables.effects && OnlyAdds(a.s, t.s, key)
    && t.o.d.run.(status := Running) == a.o.d.run.(status := Running)
    && Linked(a.s, t.s, a.o.d.run.info.tenant)
  }

  lemma OnwardTrans(env: Env, a: Turn, a1: Turn, t: Turn, step: Id, tool: string, key: string)
    requires Continues(env, a, a1, step, tool, key) && Linked(a.s, a1.s, a.o.d.run.info.tenant) && Onward(a1, t, key)
    ensures Onward(a, t, key)
  {
    LinkedTrans(a.s, a1.s, t.s, a.o.d.run.info.tenant);
  }

  lemma ThroughFrom(env: Env, a: Turn, t: Turn, a': Turn, step: Id, key: string)
    requires Onward(a, t, key) && Through(env, t, a', step, key)
    ensures Through(env, a, a', step, key)
  {
    LinkedTrans(a.s, t.s, a'.s, a.o.d.run.info.tenant);
  }

  /** A crash-free run inside a mutating call that will succeed gets through it,
      with the final entry of its key as the result. */
  lemma GetsThrough(env: Env, det: Det, a: Turn, n: nat, fin: Turn, step: Id, tool: string)
    returns (a': Turn, n': nat)
    requires Midway(env, a, step, tool) && Wins(env, det, a, n, fin) && env.tools[tool].cost >= 0.0
    ensures n' < n && Wins(env, det, a', n', fin)
    ensures Through(env, a, a', step, EffectKey(a.o.d.run.info.id, step, tool))
  {
    var t, m := ReachesRecord(env, det, a, n, fin, step, tool);
    a' := RecordThrough(env, det, t, m, fin, step, tool);
    n' := m - 1;
    ThroughFrom(env, a, t, a', step, EffectKey(a.o.d.run.info.id, step, tool));
  }

  // ---- the crashing run replays the call from the ledger ---------------------------------

  /** One tick takes the crashing run past a call whose effect is recorded. */
  ghost predicate Replayed(env: Env, b: Turn, b': Turn, step: Id, key: string) {
    && b.o.Live? && b'.o.Live? && b'.s.tables == b.s.tables && b'.s.entries == b.s.entries
    && b'.o.d.pc.Advancing? && b'.o.d.pc.next == StepOf(env, b.o.d.run.info.workflow, step).next
    && Str(key) in b.s.entries
    && b'.o.d.run == b.o.d.run.(context := b.o.d.run.context[step := b.s.entries[Str(key)]])
    && b'.s.log == b.s.log
  }

  lemma ReplayTick(env: Env, det: Det, b: Turn, step: Id, tool: string)
    requires b.o.Live? && Side(env, b.s, b.o.d) && b.o.d.pc.Ready? && InCall(b.o.d, step, tool)
    requires IsCall(env, b.o.d.run.info.workflow, step, tool)
    requires var row := GetEffect(b.s.tables, b.o.d.run.info.tenant, EffectKey(b.o.d.run.info.id, step, tool));
             row.Found? && row.result != Null
    requires StepOf(env, b.o.d.run.info.workflow, step).args(b.o.d.run.context).Some?
    ensures Replayed(env, b, Tick(env, det, b), step, EffectKey(b.o.d.run.info.id, step, tool))
  {
  }

  ghost predicate CostsNonNegative(env: Env) {
    forall t :: t in env.tools && env.tools[t].sideEffect ==> env.tools[t].cost >= 0.0
  }

  /** The crash-free run is through the call and the other one has replayed it. */
  lemma JumpLinked(env: Env, a: Turn, a': Turn, b: Turn, key: string, tenant: Id)
    requires Linked(a.s, a'.s, tenant) && OnlyAdds(a.s, a'.s, key) && Linked(a.s, b.s, tenant)
    requires key !in a.s.tables.effects && key in b.s.tables.effects && Str(key) in b.s.entries
    requires Str(key) in a'.s.entries ==> a'.s.entries[Str(key)] == b.s.entries[Str(key)]
    ensures Linked(a'.s, b.s, tenant)
  {
  }

  lemma JumpLike(env: Env, a: Turn, a': Turn, b: Turn, b': Turn, step: Id, key: string)
    requires a.o.Live? && a'.o.Live? && b.o.Live? && DriverLike(a.o.d, b.o.d) && a.o.d.run.status == Running
    requires Arrived(env, a'.s, a'.o.d, a.o.d.run, step, key) && a'.o.d.run.cost >= a.o.d.run.cost
    requires Replayed(env, b, b', step, key) && a'.s.entries[Str(key)] == b.s.entries[Str(key)]
    ensures DriverLike(a'.o.d, b'.o.d)
  {
  }

  lemma ArgsResolve(env: Env, det: Det, a: Turn, n: nat, fin: Turn)
    requires a.o.Live? && AtMutating(env, a.o.d) && !a.o.d.pc.f.comp && Wins(env, det, a, n, fin)
    ensures StepOf(env, a.o.d.run.info.workflow, a.o.d.pc.f.step).args(a.o.d.run.context).Some?
  {
    WinsTick(env, det, a, n, fin);
  }

  lemma Jump(env: Env, det: Det, a: Turn, b: Turn, n: nat, fin: Turn) returns (a': Turn, n': nat)
    requires Rel(env, a, b, fin.s.entries) && Wins(env, det, a, n, fin) && Jumps(env, a, b) && CostsNonNegative(env)
    ensures var b' := Tick(env, det, b);
            && n' < n && Wins(env, det, a', n', fin) && Rel(env, a', b', fin.s.entries)
            && Linked(a.s, a'.s, a.o.d.run.info.tenant) && a'.o.d.run.info == a.o.d.run.info
            && b'.s.tables == b.s.tables && b'.s.entries == b.s.entries && b'.s.log == b.s.log
  {
    var step := a.o.d.pc.f.step;
    var tool := StepOf(env, a.o.d.run.info.workflow, step).node.tool;
    var key := KeyAt(env, a.o.d);
    WinsAlive(env, det, a, n, fin);
    ArgsResolve(env, det, a, n, fin);
    a', n' := GetsThrough(env, det, a, n, fin, step, tool);
    WinsAlive(env, det, a', n', fin);
    ReplayTick(env, det, b, step, tool);
    TickSide(env, det, b);
    JumpLinked(env, a, a', b, key, a.o.d.run.info.tenant);
    JumpLike(env, a, a', b, Tick(env, det, b), step, key);
  }

  // ---- posted operations -----------------------------------------------------------------

  /** Whatever is still in flight would enter the value the crash-free run ends
      up with. */
  ghost predicate InFlightKnown(s: Shared, all: map<Json, Json>) {
    forall i :: 0 <= i < |s.log| && s.log[i].Posted? && Hashable(s.log[i].key) ==>
      s.log[i].key in s.entries || (s.log[i].key in all && all[s.log[i].key] == s.log[i].value)
  }

  ghost predicate NothingPosted(acts: seq<Act>) {
    forall i :: 0 <= i < |acts| ==> !acts[i].Posted?
  }

  lemma ReadyPosts(env: Env, s: Shared, d: Driver, c: Choice)
    requires d.pc.Ready? || d.pc.Think? || d.pc.Calls?
    ensures NothingPosted(PlanFor(env, s, d, c).acts)
  {
  }

  lemma CallPosts(env: Env, s: Shared, d: Driver, c: Choice)
    requires (d.pc.Calling? || d.pc.Executing? || d.pc.Recording?) && !c.Invoke?
    ensures NothingPosted(PlanFor(env, s, d, c).acts)
  {
  }

  lemma AskPosts(env: Env, s: Shared, d: Driver, c: Choice)
    requires d.pc.Asking? || d.pc.Answering?
    ensures NothingPosted(PlanFor(env, s, d, c).acts)
  {
  }

  lemma PlanPosts(env: Env, det: Det, s: Shared, d: Driver)
    requires Side(env, s, d)
    ensures var c := Oracle(env, det, d);
            && (c.Invoke? ==> d.pc.Calling? || d.pc.Executing?)
            && (!c.Invoke? ==> NothingPosted(PlanFor(env, s, d, c).acts))
  {
    var c := Oracle(env, det, d);
    if d.pc.Ready? || d.pc.Think? || d.pc.Calls? { ReadyPosts(env, s, d, c); }
    else if d.pc.Asking? || d.pc.Answering? { AskPosts(env, s, d, c); }
    else if !c.Invoke? && (d.pc.Calling? || d.pc.Executing? || d.pc.Recording?) { CallPosts(env, s, d, c); }
  }

  lemma TickKnown(env: Env, det: Det, b: Turn, all: map<Json, Json>)
    requires b.o.Live? && Side(env, b.s, b.o.d) && InFlightKnown(b.s, all)
    ensures InFlightKnown(Tick(env, det, b).s, all)
  {
    PlanPosts(env, det, b.s, b.o.d);
    if Oracle(env, det, b.o.d).Invoke? { InvokeLike(env, b.s, b.s, b.o.d, b.o.d); }
  }

  lemma DeliverKnown(s: Shared, i: nat, all: map<Json, Json>)
    requires InFlightKnown(s, all) && EO.EntriesKept(s.entries, all)
    ensures InFlightKnown(Land(s, i), all) && EO.EntriesKept(Land(s, i).entries, all)
  {
  }

  lemma PostKnown(x: Shared, y: Shared, k: seq<Act>, l: seq<Act>, all: map<Json, Json>)
    requires SamePost(k, l) && EO.EntriesKept(x.entries, y.entries) && InFlightKnown(y, all)
    requires EO.EntriesKept(Land(x.(log := x.log + k), |x.log|).entries, all)
    ensures InFlightKnown(y.(log := y.log + l), all)
  {
  }

  lemma InvokeStep(env: Env, s: Shared, d: Driver)
    requires d.pc.Calling? || d.pc.Executing?
    ensures var t, p := DriverStep(env, s, d, Invoke), PlanFor(env, s, d, Invoke);
            t.s == s.(log := s.log + p.acts)
  {
  }

  /** An operation lost in flight by a crash is one the crash-free run posts now. */
  lemma LostKnown(env: Env, det: Det, a: Turn, b: Turn, n: nat, fin: Turn)
    requires Rel(env, a, b, fin.s.entries) && Wins(env, det, a, n, fin) && InFlightKnown(b.s, fin.s.entries)
    requires Oracle(env, det, a.o.d).Invoke?
    ensures var s := DriverStep(env, b.s, b.o.d, Invoke).s;
            InFlightKnown(s, fin.s.entries) && s == b.s.(log := s.log)
  {
    PlanPosts(env, det, a.s, a.o.d);
    InvokeLike(env, a.s, b.s, a.o.d, b.o.d);
    InvokeStep(env, a.s, a.o.d);
    InvokeStep(env, b.s, b.o.d);
    TickFinal(env, det, a, n, fin);
    PostKnown(a.s, b.s, PlanFor(env, a.s, a.o.d, Invoke).acts, PlanFor(env, b.s, b.o.d, Invoke).acts, fin.s.entries);
  }

  // ---- rows ---------------------------------------------------------------------------------

  /** Only the commit of a step changes the row of a live run. */
  ghost predicate CommitsOnly(d: Driver, p: Plan) {
    p.op.Commit? && p.goal.Goto? ==> d.pc.Advancing? && p.cursor.Some? && p.goal.pc == Top(p.cursor.value) && p.status == d.run.status
  }

  lemma ReadyCommits(env: Env, s: Shared, d: Driver, c: Choice)
    requires d.pc.Ready? || d.pc.Think? || d.pc.Calls? || d.pc.Calling?
    ensures CommitsOnly(d, PlanFor(env, s, d, c))
  {
  }

  lemma AskCommits(env: Env, s: Shared, d: Driver, c: Choice)
    requires d.pc.Asking? || d.pc.Answering? || d.pc.Executing? || d.pc.Recording?
    ensures CommitsOnly(d, PlanFor(env, s, d, c))
  {
  }

  lemma PlanCommits(env: Env, s: Shared, d: Driver, c: Choice)
    requires !d.pc.Pausing? && !d.pc.Requesting?
    ensures CommitsOnly(d, PlanFor(env, s, d, c))
  {
    if d.pc.Ready? || d.pc.Think? || d.pc.Calls? || d.pc.Calling? { ReadyCommits(env, s, d, c); }
    else if d.pc.Asking? || d.pc.Answering? || d.pc.Executing? || d.pc.Recording? { AskCommits(env, s, d, c); }
  }

  /** The row of the run after a tick that leaves it live. */
  lemma TickRow(env: Env, det: Det, t: Turn)
    requires t.o.Live? && Side(env, t.s, t.o.d)
    ensures RowMoves(t, Tick(env, det, t))
  {
    PlanCommits(env, t.s, t.o.d, Oracle(env, det, t.o.d));
  }

  // ---- following the crash-free run ----------------------------------------------------------

  /** The crash-free run at its last commit, the row of the crashing one at its. */
  ghost predicate AtRow(env: Env, a0: Turn, s: Shared) {
    && a0.o.Live? && Side(env, a0.s, a0.o.d)
    && a0.o.d.run.info.id in s.tables.runs
    && var row := s.tables.runs[a0.o.d.run.info.id];
    && !Terminal(row.status) && RunLike(a0.o.d.run, row.(status := Running))
    && a0.o.d.pc == Driving(env, 0, true, row, []).pc
  }

  /** `b` is where the crash-free run is at `a`, with `n` ticks to go; a crash
      takes it back to where that run was at `a0`, with `n0` to go. */
  ghost predicate Track(env: Env, det: Det, a0: Turn, n0: nat, a: Turn, n: nat, b: Turn, fin: Turn) {
    && Rel(env, a, b, fin.s.entries) && InFlightKnown(b.s, fin.s.entries)
    && AtRow(env, a0, b.s) && a0.o.d.run.info == a.o.d.run.info
    && Wins(env, det, a0, n0, fin) && Wins(env, det, a, n, fin)
    && Linked(a0.s, a.s, a.o.d.run.info.tenant)
  }

  /** The crashing run has ended as the crash-free one did. */
  ghost predicate SameEnd(id: Id, b: Turn, fin: Turn) {
    && b.o == fin.o && b.s.entries == fin.s.entries
    && id in b.s.tables.runs && id in fin.s.tables.runs
    && RunLike(fin.s.tables.runs[id], b.s.tables.runs[id])
  }

  lemma ReloadRel(env: Env, a0: Turn, b: Turn, all: map<Json, Json>)
    requires AtRow(env, a0, b.s) && Linked(a0.s, b.s, a0.o.d.run.info.tenant) && EO.EntriesKept(b.s.entries, all)
    requires EO.LedgerAgrees(b.s.tables.effects, b.s.entries)
    requires b.o.Live? && b.o.d.run.info == a0.o.d.run.info
    ensures Rel(env, a0, Reload(env, b), all) && Reload(env, b).s == b.s
  {
  }

  lemma CrashTrack(env: Env, det: Det, a0: Turn, n0: nat, a: Turn, n: nat, b: Turn, fin: Turn)
    requires Track(env, det, a0, n0, a, n, b, fin)
    ensures Track(env, det, a0, n0, a0, n0, Reload(env, b), fin)
  {
    LinkedTrans(a0.s, a.s, b.s, a.o.d.run.info.tenant);
    ReloadRel(env, a0, b, fin.s.entries);
  }

  lemma InFlightTrack(env: Env, det: Det, a0: Turn, n0: nat, a: Turn, n: nat, b: Turn, fin: Turn)
    requires Track(env, det, a0, n0, a, n, b, fin) && Oracle(env, det, b.o.d).Invoke?
    ensures Track(env, det, a0, n0, a0, n0, MoveStep(env, det, b, CrashInFlight), fin)
  {
    OracleLike(env, det, a.o.d, b.o.d);
    LostKnown(env, det, a, b, n, fin);
    var b1 := Turn(DriverStep(env, b.s, b.o.d, Invoke).s, b.o);
    LinkedTrans(a0.s, a.s, b.s, a.o.d.run.info.tenant);
    ReloadRel(env, a0, b1, fin.s.entries);
  }

  lemma DeliverTrack(env: Env, det: Det, a0: Turn, n0: nat, a: Turn, n: nat, b: Turn, fin: Turn, i: nat)
    requires Track(env, det, a0, n0, a, n, b, fin)
    ensures Track(env, det, a0, n0, a, n, b.(s := Land(b.s, i)), fin)
  {
    DeliverKnown(b.s, i, fin.s.entries);
    LandSide(env, b.s, i, b.o.d);
    LinkedTrans(a.s, b.s, Land(b.s, i), a.o.d.run.info.tenant);
  }

  lemma JumpTrack(env: Env, det: Det, a0: Turn, n0: nat, a: Turn, n: nat, b: Turn, fin: Turn)
    returns (a': Turn, n': nat)
    requires Track(env, det, a0, n0, a, n, b, fin) && Jumps(env, a, b) && CostsNonNegative(env)
    ensures n' < n && Track(env, det, a0, n0, a', n', Tick(env, det, b), fin) && a'.o.d.run.info == a.o.d.run.info
  {
    a', n' := Jump(env, det, a, b, n, fin);
    LinkedTrans(a0.s, a.s, a'.s, a.o.d.run.info.tenant);
  }

  /** How a tick of the live run moves its row. */
  ghost predicate RowMoves(t: Turn, t': Turn) {
    t.o.Live? && t'.o.Live? && t'.s.tables.runs != t.s.tables.runs ==>
      && t'.o.d.run.cursor.Some? && t'.o.d.pc == Top(t'.o.d.run.cursor.value)
      && t'.o.d.run.info.id in t'.s.tables.runs
      && t'.s.tables.runs[t'.o.d.run.info.id] == t'.o.d.run
  }

  lemma BothMoved(env: Env, det: Det, a0: Turn, n0: nat, a: Turn, n: nat, b: Turn, fin: Turn, a': Turn, b': Turn)
    returns (a0': Turn, n0': nat)
    requires Track(env, det, a0, n0, a, n, b, fin) && n > 0 && Wins(env, det, a', n - 1, fin)
    requires Rel(env, a', b', fin.s.entries) && InFlightKnown(b'.s, fin.s.entries) && RowMoves(b, b')
    requires Linked(a.s, a'.s, a.o.d.run.info.tenant) && a'.o.d.run.info == a.o.d.run.info
    ensures Track(env, det, a0', n0', a', n - 1, b', fin)
    ensures (a0', n0') == (a0, n0) || (a0', n0') == (a', n - 1)
  {
    if b'.s.tables.runs == b.s.tables.runs {
      LinkedTrans(a0.s, a.s, a'.s, a.o.d.run.info.tenant);
      a0', n0' := a0, n0;
    } else {
      a0', n0' := a', n - 1;
    }
  }

  lemma StepTrack(env: Env, det: Det, a0: Turn, n0: nat, a: Turn, n: nat, b: Turn, fin: Turn)
    returns (a0': Turn, n0': nat, a': Turn, n': nat)
    requires Track(env, det, a0, n0, a, n, b, fin) && !Jumps(env, a, b) && Tick(env, det, a).o.Live?
    ensures Track(env, det, a0', n0', a', n', Tick(env, det, b), fin) && n' < n && a'.o.d.run.info == a.o.d.run.info
    ensures n0' == n0 || n0' == n'
  {
    Lockstep(env, det, a, b, n, fin);
    WinsTick(env, det, a, n, fin);
    TickSide(env, det, a);
    TickKnown(env, det, b, fin.s.entries);
    TickRow(env, det, b);
    a', n' := Tick(env, det, a), n - 1;
    a0', n0' := BothMoved(env, det, a0, n0, a, n, b, fin, a', Tick(env, det, b));
  }

  // ---- the end --------------------------------------------------------------------------------

  ghost predicate EndsOnly(d: Driver, p: Plan) {
    p.goal == Stop(EndSucceeded) ==>
      && d.pc.Advancing? && p.op.Commit? && p.steps == 0 && p.cost == 0.0 && p.keep.None?
      && p.status == Succeeded && p.cursor == None && p.result == Some(ResultOf(d.run.context))
  }

  lemma PlanEnds(env: Env, s: Shared, d: Driver, c: Choice)
    ensures EndsOnly(d, PlanFor(env, s, d, c))
  {
    if d.pc.Ready? { ReadyEnds(env, s, d, d.pc.f); }
    else if d.pc.Asking? || d.pc.Requesting? || d.pc.Pausing? || d.pc.Answering? { AskEnds(env, s, d, c); }
    else if d.pc.Think? || d.pc.Calls? || d.pc.Calling? || d.pc.Executing? || d.pc.Recording? { CallEnds(env, s, d, c); }
  }

  lemma CallEnds(env: Env, s: Shared, d: Driver, c: Choice)
    requires d.pc.Think? || d.pc.Calls? || d.pc.Calling? || d.pc.Executing? || d.pc.Recording?
    ensures PlanFor(env, s, d, c).goal != Stop(EndSucceeded)
  {
  }

  lemma ReadyEnds(env: Env, s: Shared, d: Driver, f: Frame)
    ensures PlanReady(env, s, d, f).goal != Stop(EndSucceeded)
  {
  }

  lemma AskEnds(env: Env, s: Shared, d: Driver, c: Choice)
    requires d.pc.Asking? || d.pc.Requesting? || d.pc.Pausing? || d.pc.Answering?
    ensures PlanFor(env, s, d, c).goal != Stop(EndSucceeded)
  {
  }

  lemma EndRow(env: Env, det: Det, t: Turn)
    requires t.o.Live? && Side(env, t.s, t.o.d) && Tick(env, det, t).o == Ended(EndSucceeded)
    ensures var runs, run := Tick(env, det, t).s.tables.runs, t.o.d.run;
            && run.info.id in runs
            && runs[run.info.id] ==
                 run.(status := Succeeded, cursor := Option.None, result := Some(ResultOf(run.context)))
  {
    PlanEnds(env, t.s, t.o.d, Oracle(env, det, t.o.d));
  }

  lemma EndTrack(env: Env, det: Det, a0: Turn, n0: nat, a: Turn, n: nat, b: Turn, fin: Turn)
    requires Track(env, det, a0, n0, a, n, b, fin) && !Jumps(env, a, b) && !Tick(env, det, a).o.Live?
    ensures SameEnd(a.o.d.run.info.id, Tick(env, det, b), fin)
  {
    WinsTick(env, det, a, n, fin);
    Lockstep(env, det, a, b, n, fin);
    EndRow(env, det, a);
    EndRow(env, det, b);
  }

  /** Any move of the crashing run keeps it on the track of the crash-free one. */
  lemma MoveTrack(
    env: Env, det: Det, a0: Turn, n0: nat, a: Turn, n: nat, b: Turn, fin: Turn, m: Move, rest: seq<Move>)
    returns (a0': Turn, n0': nat, a': Turn, n': nat, b': Turn)
    requires Track(env, det, a0, n0, a, n, b, fin) && n <= n0 && CostsNonNegative(env)
    ensures Play(env, det, b, [m] + rest) == Play(env, det, b', rest)
    ensures b'.o.Ended? ==> SameEnd(a.o.d.run.info.id, b', fin) && Play(env, det, b', rest) == b'
    ensures b'.o.Live? ==> Track(env, det, a0', n0', a', n', b', fin) && a'.o.d.run.info == a.o.d.run.info
    ensures b'.o.Live? ==> n' <= n0' <= n0 && (m.Go? ==> n' < n)
  {
    b' := MoveStep(env, det, b, m);
    PlayOne(env, det, b, m, rest);
    a0', n0', a', n' := a0, n0, a, n;
    match m
    case CrashAndResume =>
      CrashTrack(env, det, a0, n0, a, n, b, fin);
      a', n' := a0, n0;
    case CrashInFlight =>
      if Oracle(env, det, b.o.d).Invoke? { InFlightTrack(env, det, a0, n0, a, n, b, fin); }
      else { CrashTrack(env, det, a0, n0, a, n, b, fin); }
      a', n' := a0, n0;
    case Deliver(i) => DeliverTrack(env, det, a0, n0, a, n, b, fin, i);
    case Go => a0', n0', a', n' := GoTrack(env, det, a0, n0, a, n, b, fin);
  }

  lemma GoTrack(env: Env, det: Det, a0: Turn, n0: nat, a: Turn, n: nat, b: Turn, fin: Turn)
    returns (a0': Turn, n0': nat, a': Turn, n': nat)
    requires Track(env, det, a0, n0, a, n, b, fin) && n <= n0 && CostsNonNegative(env)
    ensures var b' := Tick(env, det, b);
            || SameEnd(a.o.d.run.info.id, b', fin)
            || (Track(env, det, a0', n0', a', n', b', fin) && n' <= n0' <= n0 && n' < n &&
                a'.o.d.run.info == a.o.d.run.info)
  {
    a0', n0', a', n' := a0, n0, a, n;
    if Jumps(env, a, b) { a', n' := JumpTrack(env, det, a0, n0, a, n, b, fin); }
    else if Tick(env, det, a).o.Live? { a0', n0', a', n' := StepTrack(env, det, a0, n0, a, n, b, fin); }
    else { EndTrack(env, det, a0, n0, a, n, b, fin); }
  }

  lemma PlayOne(env: Env, det: Det, b: Turn, m: Move, rest: seq<Move>)
    requires b.o.Live?
    ensures Play(env, det, b, [m] + rest) == Play(env, det, MoveStep(env, det, b, m), rest)
  {
    assert ([m] + rest)[1..] == rest;
  }

  /** The last `k` moves are undisturbed steps. */
  ghost predicate Undisturbed(moves: seq<Move>, k: nat) {
    k <= |moves| && forall i :: |moves| - k <= i < |moves| ==> moves[i].Go?
  }

  lemma {:induction false} PlayTrack(
    env: Env, det: Det, a0: Turn, n0: nat, a: Turn, n: nat, b: Turn, fin: Turn, moves: seq<Move>, k: nat)
    requires Track(env, det, a0, n0, a, n, b, fin) && n <= n0 && CostsNonNegative(env)
    requires Undisturbed(moves, k) && (n0 <= k || (n <= k && |moves| == k))
    ensures SameEnd(a.o.d.run.info.id, Play(env, det, b, moves), fin)
    decreases moves
  {
    WinsTick(env, det, a, n, fin);
    assert moves == [moves[0]] + moves[1..];
    var a0', n0', a', n', b' := MoveTrack(env, det, a0, n0, a, n, b, fin, moves[0], moves[1..]);
    if b'.o.Live? {
      PlayTrack(env, det, a0', n0', a', n', b', fin, moves[1..], if k == |moves| then k - 1 else k);
    }
  }

  /** A driver at the start of a `resume`, with nothing in flight. */
  ghost predicate Starts(env: Env, t: Turn) {
    && t.o.Live? && Side(env, t.s, t.o.d) && AtRow(env, t, t.s)
    && forall i :: 0 <= i < |t.s.log| && t.s.log[i].Posted? && Hashable(t.s.log[i].key) ==> t.s.log[i].key in t.s.entries
  }

  /** Crash equivalence. If the run without crashes succeeds, then so does every
      schedule of crashes at any points, with operations in flight delivered at
      any time, as soon as the run is left alone for as long as the crash-free
      one took; and it ends with the same context, result, status, cursor, steps
      and external entries, and a cost that is no higher. */
  lemma CrashesDoNotMatter(env: Env, det: Det, t: Turn, n: nat, fin: Turn, moves: seq<Move>)
    requires Starts(env, t) && CostsNonNegative(env)
    requires Ticks(env, det, t, n) == fin && fin.o == Ended(EndSucceeded)
    requires Undisturbed(moves, n)
    ensures var id, u := t.o.d.run.info.id, Play(env, det, t, moves);
            && u.o == Ended(EndSucceeded) && u.s.entries == fin.s.entries
            && id in u.s.tables.runs && id in fin.s.tables.runs
            && var row, row' := fin.s.tables.runs[id], u.s.tables.runs[id];
            && row'.context == row.context && row'.result == row.result && row'.steps == row.steps
            && row'.status == row.status && row'.cursor == row.cursor && row'.info == row.info
            && row'.cost <= row.cost
  {
    WinsIs(env, det, t, n, fin);
    WinsAlive(env, det, t, n, fin);
    PlayTrack(env, det, t, n, t, n, t, fin, moves, n);
  }

  /** A run that has just been fired, in any state the system can reach with
      nothing in flight, is at such a start. */
  lemma FiredStarts(env: Env, acts: seq<Action>, a: Action)
    requires a.Fire? && a.sync && a.wf in env.workflows
    requires var w := Exec(env, INIT, acts);
             && Fresh(w.s.tables, NewRun(env, a))
             && (forall i :: 0 <= i < |w.s.log| && w.s.log[i].Posted? && Hashable(w.s.log[i].key) ==> w.s.log[i].key in w.s.entries)
    ensures var w := Exec(env, INIT, acts);
            var w' := Next(env, w, a);
            w.nextId in w'.drivers && Starts(env, Turn(w'.s, Live(w'.drivers[w.nextId])))
  {
    EO.ExecInv(env, INIT, acts);
  }

  // ---- crash schedules are runs of the system ---------------------------------------------------

  /** The system with this driver alone at work, or with none. */
  ghost function Alone(t: Turn, id: nat): World {
    World(t.s, if t.o.Live? then map[id := t.o.d] else map[], id + 1)
  }

  ghost predicate AloneOk(env: Env, t: Turn, id: nat) {
    && SD.Inv(env, Alone(t, id))
    && (t.o.Live? ==> t.o.d.id == id && t.o.d.sync && t.o.d.run.info.workflow in env.workflows)
  }

  lemma ExecOne(env: Env, w: World, a: Action)
    ensures Exec(env, w, [a]) == Next(env, w, a) && (SD.Serial(w, a) ==> SD.SerialRun(env, w, [a]))
  {
    assert [a][1..] == [];
  }

  lemma ExecTwo(env: Env, w: World, a: Action, b: Action)
    ensures Exec(env, w, [a, b]) == Next(env, Next(env, w, a), b)
    ensures SD.Serial(w, a) && SD.Serial(Next(env, w, a), b) ==> SD.SerialRun(env, w, [a, b])
  {
    assert [a, b] == [a] + [b];
    SD.JoinRuns(env, w, [a], [b]);
    ExecOne(env, w, a);
    ExecOne(env, Next(env, w, a), b);
  }

  lemma AloneSteps(env: Env, t: Turn, id: nat, c: Choice)
    requires t.o.Live?
    ensures var t' := DriverStep(env, t.s, t.o.d, c);
            && Next(env, Alone(t, id), Drive(id, c)) == Alone(t', id)
            && (t'.o.Live? ==>
                  t'.o.d.id == t.o.d.id && t'.o.d.sync == t.o.d.sync && t'.o.d.run.info == t.o.d.run.info)
  {
    var w, t' := Alone(t, id), DriverStep(env, t.s, t.o.d, c);
    assert w.drivers - {id} == map[] && (t'.o.Live? ==> w.drivers[id := t'.o.d] == map[id := t'.o.d]);
  }

  lemma DriveAlone(env: Env, t: Turn, id: nat, c: Choice)
    requires AloneOk(env, t, id) && t.o.Live?
    ensures var t' := DriverStep(env, t.s, t.o.d, c);
            Next(env, Alone(t, id), Drive(id, c)) == Alone(t', id) && AloneOk(env, t', id)
  {
    AloneSteps(env, t, id, c);
    SD.NextInv(env, Alone(t, id), Drive(id, c));
  }

  lemma LandAlone(env: Env, t: Turn, id: nat, i: nat)
    requires AloneOk(env, t, id)
    ensures Next(env, Alone(t, id), Arrive(i)) == Alone(t.(s := Land(t.s, i)), id)
    ensures AloneOk(env, t.(s := Land(t.s, i)), id)
  {
    SD.NextInv(env, Alone(t, id), Arrive(i));
  }

  /** With no driver left, a resume of the run starts from its row. */
  lemma RestartAlone(env: Env, s: Shared, id: nat, d: Driver)
    requires SD.Inv(env, World(s, map[], id + 1)) && SD.DriverInv(env, s.tables, d)
    requires d.id == id && d.run.info.workflow in env.workflows
    ensures var t := Reload(env, Turn(s, Live(d)));
            && Next(env, World(s, map[], id + 1), Start(d.run.info.tenant, d.run.info.id, true)) == Alone(t, id + 1)
            && AloneOk(env, t, id + 1)
  {
    var w := World(s, map[], id + 1);
    SD.NextInv(env, w, Start(d.run.info.tenant, d.run.info.id, true));
  }

  /** A crash of the driver, if it is still there, and a resume. */
  lemma CrashAlone(env: Env, w: World, id: nat, d: Driver) returns (acts: seq<Action>)
    requires SD.Inv(env, w) && w.drivers - {id} == map[] && w.nextId == id + 1
    requires SD.DriverInv(env, w.s.tables, d) && d.id == id && d.run.info.workflow in env.workflows
    ensures var t := Reload(env, Turn(w.s, Live(d)));
            Exec(env, w, acts) == Alone(t, id + 1) && AloneOk(env, t, id + 1) && SD.SerialRun(env, w, acts)
  {
    acts := [Crash(id), Start(d.run.info.tenant, d.run.info.id, true)];
    SD.NextInv(env, w, acts[0]);
    ExecTwo(env, w, acts[0], acts[1]);
    RestartAlone(env, w.s, id, d);
  }

  lemma ReloadAlone(env: Env, t: Turn, id: nat) returns (acts: seq<Action>)
    requires AloneOk(env, t, id) && t.o.Live?
    ensures Exec(env, Alone(t, id), acts) == Alone(Reload(env, t), id + 1) && AloneOk(env, Reload(env, t), id + 1)
    ensures SD.SerialRun(env, Alone(t, id), acts)
  {
    var w := Alone(t, id);
    assert SD.DriverInv(env, t.s.tables, w.drivers[id]);
    assert w.drivers - {id} == map[];
    acts := CrashAlone(env, w, id, t.o.d);
  }

  /** The operation is handed over, then the driver crashes. */
  lemma LoseAlone(env: Env, t: Turn, id: nat) returns (acts: seq<Action>)
    requires AloneOk(env, t, id) && t.o.Live? && (t.o.d.pc.Calling? || t.o.d.pc.Executing?)
    ensures var u := Turn(DriverStep(env, t.s, t.o.d, Invoke).s, t.o);
            && Exec(env, Alone(t, id), acts) == Alone(Reload(env, u), id + 1) && AloneOk(env, Reload(env, u), id + 1)
    ensures SD.SerialRun(env, Alone(t, id), acts)
  {
    var w, t1 := Alone(t, id), DriverStep(env, t.s, t.o.d, Invoke);
    assert SD.DriverInv(env, t.s.tables, w.drivers[id]);
    DriveAlone(env, t, id, Invoke);
    InvokeStep(env, t.s, t.o.d);
    assert Alone(t1, id).drivers - {id} == map[];
    SameTables(env, t.s, t1.s, t.o.d);
    var tail := CrashAlone(env, Alone(t1, id), id, t.o.d);
    acts := [Drive(id, Invoke)] + tail;
    SD.JoinRuns(env, w, [Drive(id, Invoke)], tail);
    ExecOne(env, w, Drive(id, Invoke));
  }

  lemma SameTables(env: Env, s: Shared, s': Shared, d: Driver)
    requires SD.DriverInv(env, s.tables, d) && s'.tables == s.tables
    ensures SD.DriverInv(env, s'.tables, d)
  {
  }

  /** One move of a crash schedule is a serial run of the system. */
  lemma MoveIsRun(env: Env, det: Det, t: Turn, id: nat, m: Move) returns (acts: seq<Action>, id': nat)
    requires AloneOk(env, t, id) && t.o.Live?
    ensures var t' := MoveStep(env, det, t, m);
            && Exec(env, Alone(t, id), acts) == Alone(t', id') && AloneOk(env, t', id')
            && SD.SerialRun(env, Alone(t, id), acts)
  {
    var c := Oracle(env, det, t.o.d);
    var t1 := DriverStep(env, t.s, t.o.d, c);
    id' := id;
    match m
    case Go =>
      DriveAlone(env, t, id, c);
      if c.Invoke? {
        LandAlone(env, t1, id, |t.s.log|);
        acts := [Drive(id, c), Arrive(|t.s.log|)];
        ExecTwo(env, Alone(t, id), acts[0], acts[1]);
      } else {
        acts := [Drive(id, c)];
        ExecOne(env, Alone(t, id), acts[0]);
      }
    case CrashAndResume =>
      acts := ReloadAlone(env, t, id);
      id' := id + 1;
    case CrashInFlight =>
      if c.Invoke? { acts := LoseAlone(env, t, id); } else { acts := ReloadAlone(env, t, id); }
      id' := id + 1;
    case Deliver(i) =>
      LandAlone(env, t, id, i);
      acts := [Arrive(i)];
      ExecOne(env, Alone(t, id), acts[0]);
  }

  /** Every crash schedule is a serial run of the system: each crash, restart,
      step and delivery is an action of it. */
  lemma {:induction false} PlayIsRun(env: Env, det: Det, t: Turn, id: nat, moves: seq<Move>)
    returns (acts: seq<Action>, id': nat)
    requires AloneOk(env, t, id)
    ensures Exec(env, Alone(t, id), acts) == Alone(Play(env, det, t, moves), id')
    ensures SD.SerialRun(env, Alone(t, id), acts)
    decreases moves
  {
    acts, id' := [], id;
    if moves != [] && t.o.Live? {
      var first, id1 := MoveIsRun(env, det, t, id, moves[0]);
      var t' := MoveStep(env, det, t, moves[0]);
      var rest, id2 := PlayIsRun(env, det, t', id1, moves[1..]);
      SD.JoinRuns(env, Alone(t, id), first, rest);
      acts, id' := first + rest, id2;
    }
  }
}
