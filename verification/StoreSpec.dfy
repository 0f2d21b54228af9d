/** The durable tables and the store's operations as functions of them. */
module StoreSpec {
  import opened Core

  datatype ApprovalStatus = ApprovalPending | Approved | Rejected

  datatype Approval = Approval(run: Id, tenant: Id, step: Id, status: ApprovalStatus)

  datatype EffectRow = EffectRow(run: Id, tenant: Id, step: Id, tool: string, result: Json)

  /** `keys` is the unique index on (tenant, idempotency key). An approval's id
      is its row number, an event's sequence number its position. */
  datatype Tables = Tables(
    runs: map<Id, Run>, keys: map<(Id, string), Id>, events: seq<Event>,
    approvals: seq<Approval>, effects: map<string, EffectRow>)

  /** The payload `{}`. */
  const PURGED := Obj(map[])

  const EMPTY := Tables(map[], map[], [], [], map[])

  // ---- operations; no result means a TenantIsolationError or KeyError -----

  predicate Owns(t: Tables, tenant: Id, run: Id) {
    run in t.runs ==> t.runs[run].info.tenant == tenant
  }

  predicate AllOf(events: seq<Event>, tenant: Id) {
    forall i :: 0 <= i < |events| ==> events[i].tenant == tenant
  }

  /** INSERT OR IGNORE: a clash of run id or of (tenant, key) inserts nothing. */
  predicate Fresh(t: Tables, run: Run) {
    run.info.id !in t.runs && (run.info.tenant, run.info.key) !in t.keys
  }

  function CreateRun(t: Tables, run: Run): Tables {
    if Fresh(t, run) then
      t.(runs := t.runs[run.info.id := run], keys := t.keys[(run.info.tenant, run.info.key) := run.info.id])
    else t
  }

  function Updated(row: Run, run: Run): Run {
    row.(status := run.status, cursor := run.cursor, context := run.context,
         cost := run.cost, steps := run.steps, result := run.result)
  }

  function Checkpoint(t: Tables, run: Run, events: seq<Event>): Option<Tables> {
    if !Owns(t, run.info.tenant, run.info.id) || !AllOf(events, run.info.tenant) then None
    else
      Some(t.(runs := if run.info.id in t.runs then t.runs[run.info.id := Updated(t.runs[run.info.id], run)] else t.runs,
              events := t.events + events))
  }

  function CancelRun(t: Tables, tenant: Id, run: Id): Option<(Tables, bool)> {
    if !Owns(t, tenant, run) then None
    else if run !in t.runs || Terminal(t.runs[run].status) then Some((t, false))
    else
      Some((t.(runs := t.runs[run := t.runs[run].(status := Canceled)],
               events := t.events + [Event(run, tenant, RunCanceled, Option.None, 0.0, PURGED)]), true))
  }

  datatype Lookup = Missing | Foreign | Found(result: Json)

  function GetEffect(t: Tables, tenant: Id, key: string): Lookup {
    if key !in t.effects then Missing
    else if t.effects[key].tenant != tenant then Foreign
    else Found(t.effects[key].result)
  }

  function RecordEffect(t: Tables, key: string, row: EffectRow): Tables {
    if key in t.effects then t else t.(effects := t.effects[key := row])
  }

  function CreateApproval(t: Tables, tenant: Id, run: Id, step: Id): Option<Tables> {
    if !Owns(t, tenant, run) then None
    else Some(t.(approvals := t.approvals + [Approval(run, tenant, step, ApprovalPending)]))
  }

  function ResolveApproval(t: Tables, tenant: Id, id: nat, approved: bool): Option<Tables> {
    if |t.approvals| <= id || t.approvals[id].tenant != tenant then None
    else
      Some(t.(approvals := t.approvals[id := t.approvals[id].(status := if approved then Approved else Rejected)]))
  }

  predicate Concerns(a: Approval, tenant: Id, run: Id, step: Id) {
    a.tenant == tenant && a.run == run && a.step == step
  }

  /** The most recently inserted approval row for a run and step. */
  function Latest(rows: seq<Approval>, tenant: Id, run: Id, step: Id): (i: Option<nat>)
    ensures i.Some? ==> i.value < |rows| && Concerns(rows[i.value], tenant, run, step)
    ensures forall j :: (if i.Some? then i.value + 1 else 0) <= j < |rows| ==> !Concerns(rows[j], tenant, run, step)
  {
    if rows == [] then None
    else if Concerns(rows[|rows| - 1], tenant, run, step) then Some(|rows| - 1)
    else Latest(rows[..|rows| - 1], tenant, run, step)
  }

  /** Retention: empty the payloads of the tenant's events in `stale`. */
  function Purge(t: Tables, tenant: Id, stale: set<nat>): Tables {
    t.(events := seq(|t.events|, i requires 0 <= i < |t.events| =>
      if i in stale && t.events[i].tenant == tenant then t.events[i].(payload := PURGED) else t.events[i]))
  }

  function EventsOf(events: seq<Event>, run: Id): seq<Event> {
    if events == [] then []
    else
      var last := events[|events| - 1];
      EventsOf(events[..|events| - 1], run) + if last.run == run then [last] else []
  }

  /** The events of a run that belong to the tenant. */
  function TraceOf(events: seq<Event>, tenant: Id, run: Id): (trace: seq<Event>)
    ensures forall i :: 0 <= i < |trace| ==> trace[i].tenant == tenant && trace[i].run == run
  {
    if events == [] then []
    else
      var last := events[|events| - 1];
      TraceOf(events[..|events| - 1], tenant, run) + if last.run == run && last.tenant == tenant then [last] else []
  }

  /** `ys` are the elements of `xs` at the positions in `at`, which ascend. */
  ghost predicate Picks(xs: seq<Event>, at: seq<nat>, ys: seq<Event>) {
    && |at| == |ys| && (forall k :: 0 <= k < |at| ==> at[k] < |xs| && ys[k] == xs[at[k]])
    && (forall j, k :: 0 <= j < k < |at| ==> at[j] < at[k])
  }

  /** The trace is every event of the tenant's run, and nothing else, in order. */
  lemma {:induction false} TraceExactly(events: seq<Event>, tenant: Id, run: Id) returns (at: seq<nat>)
    ensures Picks(events, at, TraceOf(events, tenant, run))
    ensures forall i :: 0 <= i < |events| ==> (i in at <==> events[i].tenant == tenant && events[i].run == run)
  {
    at := [];
    if events != [] {
      var n := |events| - 1;
      at := TraceExactly(events[..n], tenant, run);
      assert forall k :: 0 <= k < |at| ==> at[k] < n && events[..n][at[k]] == events[at[k]];
      if events[n].tenant == tenant && events[n].run == run { at := at + [n]; }
    }
  }

  /** Likewise for the events of a run, which all the claims about logs speak of. */
  lemma {:induction false} EventsExactly(events: seq<Event>, run: Id) returns (at: seq<nat>)
    ensures Picks(events, at, EventsOf(events, run))
    ensures forall i :: 0 <= i < |events| ==> (i in at <==> events[i].run == run)
  {
    at := [];
    if events != [] {
      var n := |events| - 1;
      at := EventsExactly(events[..n], run);
      assert forall k :: 0 <= k < |at| ==> at[k] < n && events[..n][at[k]] == events[at[k]];
      if events[n].run == run { at := at + [n]; }
    }
  }

  // ---- any sequence of operations -------------------------------------------

  datatype Op =
    | OpCreate(run: Run)
    | OpCheckpoint(run: Run, events: seq<Event>)
    | OpCancel(tenant: Id, id: Id)
    | OpRecord(key: string, row: EffectRow)
    | OpCreateApproval(tenant: Id, id: Id, step: Id)
    | OpResolve(tenant: Id, approval: nat, approved: bool)
    | OpPurge(tenant: Id, stale: set<nat>)

  function TenantOf(op: Op): Id {
    match op
    case OpCreate(run) => run.info.tenant
    case OpCheckpoint(run, _) => run.info.tenant
    case OpCancel(tenant, _) => tenant
    case OpRecord(_, row) => row.tenant
    case OpCreateApproval(tenant, _, _) => tenant
    case OpResolve(tenant, _, _) => tenant
    case OpPurge(tenant, _) => tenant
  }

  function OrElse(r: Option<Tables>, t: Tables): Tables {
    if r.Some? then r.value else t
  }

  /** An operation that raises leaves the tables as they were. */
  function Do(t: Tables, op: Op): Tables {
    match op
    case OpCreate(run) => CreateRun(t, run)
    case OpCheckpoint(run, events) => OrElse(Checkpoint(t, run, events), t)
    case OpCancel(tenant, id) => if CancelRun(t, tenant, id).Some? then CancelRun(t, tenant, id).value.0 else t
    case OpRecord(key, row) => RecordEffect(t, key, row)
    case OpCreateApproval(tenant, id, step) => OrElse(CreateApproval(t, tenant, id, step), t)
    case OpResolve(tenant, approval, approved) => OrElse(ResolveApproval(t, tenant, approval, approved), t)
    case OpPurge(tenant, stale) => Purge(t, tenant, stale)
  }

  function DoAll(t: Tables, ops: seq<Op>): Tables
    decreases ops
  {
    if ops == [] then t else DoAll(Do(t, ops[0]), ops[1..])
  }

  ghost predicate SameRuns(t: Tables, u: Tables, tenant: Id) {
    && (forall r :: r in t.runs && t.runs[r].info.tenant == tenant ==> r in u.runs && u.runs[r] == t.runs[r])
    && (forall r :: r in u.runs && u.runs[r].info.tenant == tenant ==> r in t.runs && t.runs[r] == u.runs[r])
  }

  ghost predicate SameEffects(t: Tables, u: Tables, tenant: Id) {
    && (forall k :: k in t.effects && t.effects[k].tenant == tenant ==> k in u.effects && u.effects[k] == t.effects[k])
    && (forall k :: k in u.effects && u.effects[k].tenant == tenant ==> k in t.effects && t.effects[k] == u.effects[k])
  }

  /** Rows are never removed, so a tenant's events and approvals stay at their
      positions; later positions hold no row of that tenant. */
  ghost predicate SameEvents(t: Tables, u: Tables, tenant: Id) {
    && |t.events| <= |u.events|
    && (forall i :: 0 <= i < |t.events| ==> t.events[i].tenant == u.events[i].tenant)
    && (forall i :: 0 <= i < |t.events| && t.events[i].tenant == tenant ==> u.events[i] == t.events[i])
    && (forall i :: |t.events| <= i < |u.events| ==> u.events[i].tenant != tenant)
  }

  ghost predicate SameApprovals(t: Tables, u: Tables, tenant: Id) {
    && |t.approvals| <= |u.approvals|
    && (forall i :: 0 <= i < |t.approvals| ==> t.approvals[i].tenant == u.approvals[i].tenant)
    && (forall i :: 0 <= i < |t.approvals| && t.approvals[i].tenant == tenant ==> u.approvals[i] == t.approvals[i])
    && (forall i :: |t.approvals| <= i < |u.approvals| ==> u.approvals[i].tenant != tenant)
  }

  ghost predicate Untouched(t: Tables, u: Tables, tenant: Id) {
    SameRuns(t, u, tenant) && SameEffects(t, u, tenant) && SameEvents(t, u, tenant) && SameApprovals(t, u, tenant)
  }

  lemma OpRunsFrame(t: Tables, op: Op, tenant: Id)
    requires TenantOf(op) != tenant
    ensures SameRuns(t, Do(t, op), tenant)
  {
    match op
    case OpCreate(_) =>
    case OpCheckpoint(_, _) =>
    case OpCancel(_, _) =>
    case OpRecord(_, _) =>
    case OpCreateApproval(_, _, _) =>
    case OpResolve(_, _, _) =>
    case OpPurge(_, _) =>
  }

  lemma OpEffectsFrame(t: Tables, op: Op, tenant: Id)
    requires TenantOf(op) != tenant
    ensures SameEffects(t, Do(t, op), tenant)
  {
    match op
    case OpCreate(_) =>
    case OpCheckpoint(_, _) =>
    case OpCancel(_, _) =>
    case OpRecord(_, _) =>
    case OpCreateApproval(_, _, _) =>
    case OpResolve(_, _, _) =>
    case OpPurge(_, _) =>
  }

  lemma OpEventsFrame(t: Tables, op: Op, tenant: Id)
    requires TenantOf(op) != tenant
    ensures SameEvents(t, Do(t, op), tenant)
  {
    match op
    case OpCreate(_) =>
    case OpCheckpoint(_, _) =>
    case OpCancel(_, _) =>
    case OpRecord(_, _) =>
    case OpCreateApproval(_, _, _) =>
    case OpResolve(_, _, _) =>
    case OpPurge(_, _) =>
  }

  lemma OpApprovalsFrame(t: Tables, op: Op, tenant: Id)
    requires TenantOf(op) != tenant
    ensures SameApprovals(t, Do(t, op), tenant)
  {
    match op
    case OpCreate(_) =>
    case OpCheckpoint(_, _) =>
    case OpCancel(_, _) =>
    case OpRecord(_, _) =>
    case OpCreateApproval(_, _, _) =>
    case OpResolve(_, _, _) =>
    case OpPurge(_, _) =>
  }

  /** Whatever the other tenants do, in any order and number, every run, event,
      approval and effect of this tenant stays exactly as it was, and none is
      added. */
  lemma {:induction false} TenantFrame(t: Tables, ops: seq<Op>, tenant: Id)
    requires forall i :: 0 <= i < |ops| ==> TenantOf(ops[i]) != tenant
    ensures Untouched(t, DoAll(t, ops), tenant)
    decreases ops
  {
    if ops != [] {
      OpRunsFrame(t, ops[0], tenant);
      OpEffectsFrame(t, ops[0], tenant);
      OpEventsFrame(t, ops[0], tenant);
      OpApprovalsFrame(t, ops[0], tenant);
      TenantFrame(Do(t, ops[0]), ops[1..], tenant);
    }
  }

  /** A run's identity columns and the index entry that leads to it are never
      changed by any operation of any tenant, and its row is never removed. */
  lemma {:induction false} IdentityFixed(t: Tables, ops: seq<Op>, r: Id)
    requires r in t.runs && t.runs[r].info.id == r
    ensures var u := DoAll(t, ops); r in u.runs && u.runs[r].info == t.runs[r].info
    ensures forall k :: k in t.keys ==> k in DoAll(t, ops).keys && DoAll(t, ops).keys[k] == t.keys[k]
    decreases ops
  {
    if ops != [] {
      IdentityFixed(Do(t, ops[0]), ops[1..], r);
    }
  }
}
