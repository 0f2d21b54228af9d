/** What holds of rows, keys and logs however drivers of the same run race: a run's
    identity, the index that leads to it, and, once it is terminal and nobody
    drives it, all of it. */
module Racing {
  import opened Core
  import opened StoreSpec
  import opened Machine
  import opened Books
  import SD = SingleDriver

  // ---- the invariant ---------------------------------------------------------------------------

  ghost predicate Keyed(runs: map<Id, Run>) {
    forall r :: r in runs ==> runs[r].info.id == r
  }

  /** The unique index leads to the run of that tenant and key. */
  ghost predicate Indexed(runs: map<Id, Run>, keys: map<(Id, string), Id>) {
    forall k :: k in keys ==> keys[k] in runs && (runs[keys[k]].info.tenant, runs[keys[k]].info.key) == k
  }

  ghost predicate DriverOk(runs: map<Id, Run>, d: Driver) {
    && d.run.info.id in runs && runs[d.run.info.id].info == d.run.info
    && Mine(d.buffer, d.run.info) && !Terminal(d.run.status)
  }

  ghost predicate Inv(w: World) {
    && Keyed(w.s.tables.runs) && Indexed(w.s.tables.runs, w.s.tables.keys)
    && forall i :: i in w.drivers ==> DriverOk(w.s.tables.runs, w.drivers[i])
  }

  /** Rows are never removed and their identity columns never change. */
  ghost predicate Identities(runs: map<Id, Run>, runs': map<Id, Run>) {
    forall r :: r in runs ==> r in runs' && runs'[r].info == runs[r].info
  }

  // ---- one step ------------------------------------------------------------------------------------

  /** A step changes at most the row of its own run and appends only its events. */
  lemma StepTables(env: Env, s: Shared, d: Driver, c: Choice)
    requires DriverOk(s.tables.runs, d)
    ensures var p := PlanFor(env, s, d, c);
            var t := TablesAfter(s.tables, d, p);
            && t.keys == s.tables.keys
            && (t.runs == s.tables.runs || t.runs == s.tables.runs[d.run.info.id := RunAfter(d, p)])
            && (t.events == s.tables.events || t.events == s.tables.events + (d.buffer + p.events))
            && Mine(d.buffer + p.events, d.run.info)
            && (p.goal.Goto? ==> Mine(BufferAfter(d, p), d.run.info) && !Terminal(p.status))
  {
    SD.PlanSound(env, s, d, c);
  }

  lemma DriveInv(env: Env, w: World, a: Action)
    requires Inv(w) && a.Drive?
    ensures Inv(Next(env, w, a)) && Identities(w.s.tables.runs, Next(env, w, a).s.tables.runs)
  {
    if a.d in w.drivers { StepTables(env, w.s, w.drivers[a.d], a.c); }
  }

  lemma FireInv(env: Env, w: World, a: Action)
    requires Inv(w) && a.Fire?
    ensures Inv(Next(env, w, a)) && Identities(w.s.tables.runs, Next(env, w, a).s.tables.runs)
  {
    if a.wf in env.workflows && Fresh(w.s.tables, NewRun(env, a)) {
      FiredRows(w.s.tables, NewRun(env, a));
    }
  }

  lemma FiredRows(t: Tables, run: Run)
    requires Keyed(t.runs) && Indexed(t.runs, t.keys) && Fresh(t, run)
    ensures var t' := CreateRun(t, run);
            && Keyed(t'.runs) && Indexed(t'.runs, t'.keys) && Identities(t.runs, t'.runs)
            && (forall d :: DriverOk(t.runs, d) ==> DriverOk(t'.runs, d))
  {
  }

  lemma StartInv(env: Env, w: World, a: Action)
    requires Inv(w) && a.Start?
    ensures Inv(Next(env, w, a)) && Identities(w.s.tables.runs, Next(env, w, a).s.tables.runs)
  {
  }

  lemma NextInv(env: Env, w: World, a: Action)
    requires Inv(w)
    ensures Inv(Next(env, w, a)) && Identities(w.s.tables.runs, Next(env, w, a).s.tables.runs)
  {
    if a.Drive? { DriveInv(env, w, a); }
    else if a.Fire? { FireInv(env, w, a); }
    else if a.Start? { StartInv(env, w, a); }
  }

  lemma {:induction false} ExecInv(env: Env, w: World, acts: seq<Action>)
    requires Inv(w)
    ensures Inv(Exec(env, w, acts)) && Identities(w.s.tables.runs, Exec(env, w, acts).s.tables.runs)
    decreases acts
  {
    if acts != [] {
      NextInv(env, w, acts[0]);
      ExecInv(env, Next(env, w, acts[0]), acts[1..]);
    }
  }

  // ---- a terminal run without a driver ----------------------------------------------------------------

  ghost predicate Settled(w: World, r: Id) {
    r in w.s.tables.runs && Terminal(w.s.tables.runs[r].status) && SD.NoDriver(w, r)
  }

  lemma DriveSettled(env: Env, w: World, a: Action, r: Id)
    requires Inv(w) && Settled(w, r) && a.Drive?
    ensures Settled(Next(env, w, a), r) && SD.Kept(w.s.tables, Next(env, w, a).s.tables, r)
  {
    if a.d in w.drivers {
      var d := w.drivers[a.d];
      var more := d.buffer + PlanFor(env, w.s, d, a.c).events;
      StepTables(env, w.s, d, a.c);
      EventsAppend(w.s.tables.events, more, r);
      EventsMine(more, d.run.info, r);
      assert EventsOf(w.s.tables.events, r) + [] == EventsOf(w.s.tables.events, r);
    }
  }

  lemma CancelSettled(env: Env, w: World, a: Action, r: Id)
    requires Inv(w) && Settled(w, r) && a.Cancel?
    ensures Settled(Next(env, w, a), r) && SD.Kept(w.s.tables, Next(env, w, a).s.tables, r)
  {
    if SD.Cancelable(w.s.tables, a.tenant, a.id) {
      var last := Event(a.id, a.tenant, RunCanceled, None, 0.0, PURGED);
      EventsAppend(w.s.tables.events, [last], r);
      EventsMine([last], w.s.tables.runs[a.id].info, r);
      assert EventsOf(w.s.tables.events, r) + [] == EventsOf(w.s.tables.events, r);
    }
  }

  lemma PurgeSettled(env: Env, w: World, a: Action, r: Id)
    requires Settled(w, r) && a.PurgePayloads?
    ensures Settled(Next(env, w, a), r) && SD.Kept(w.s.tables, Next(env, w, a).s.tables, r)
  {
    AlikeEvents(w.s.tables.events, Purge(w.s.tables, a.tenant, a.stale).events, r);
  }

  lemma OtherSettled(env: Env, w: World, a: Action, r: Id)
    requires Inv(w) && Settled(w, r) && !a.Drive? && !a.Cancel? && !a.PurgePayloads?
    ensures Settled(Next(env, w, a), r) && SD.Kept(w.s.tables, Next(env, w, a).s.tables, r)
  {
  }

  lemma NextSettled(env: Env, w: World, a: Action, r: Id)
    requires Inv(w) && Settled(w, r)
    ensures Settled(Next(env, w, a), r) && SD.Kept(w.s.tables, Next(env, w, a).s.tables, r)
  {
    if a.Drive? { DriveSettled(env, w, a, r); }
    else if a.Cancel? { CancelSettled(env, w, a, r); }
    else if a.PurgePayloads? { PurgeSettled(env, w, a, r); }
    else { OtherSettled(env, w, a, r); }
  }

  lemma {:induction false} StaysSettled(env: Env, w: World, acts: seq<Action>, r: Id)
    requires Inv(w) && Settled(w, r)
    ensures SD.Kept(w.s.tables, Exec(env, w, acts).s.tables, r)
    decreases acts
  {
    if acts != [] {
      NextInv(env, w, acts[0]);
      NextSettled(env, w, acts[0], r);
      StaysSettled(env, Next(env, w, acts[0]), acts[1..], r);
    }
  }

  /** Under every interleaving, racing drivers included: a run that is terminal
      and has no driver right now never changes again, in any future. */
  lemma TerminalUndriven(env: Env, acts: seq<Action>, more: seq<Action>, r: Id)
    requires var w := Exec(env, INIT, acts);
             r in w.s.tables.runs && Terminal(w.s.tables.runs[r].status) && SD.NoDriver(w, r)
    ensures var w := Exec(env, INIT, acts); SD.Kept(w.s.tables, Exec(env, w, more).s.tables, r)
  {
    ExecInv(env, INIT, acts);
    StaysSettled(env, Exec(env, INIT, acts), more, r);
  }
}
