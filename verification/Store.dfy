/** The store object: its methods update the tables in place and agree with the
    operations of StoreSpec. */
module Store {
  import opened Core
  import opened S = StoreSpec

  class SqlStore {
    var runs: map<Id, Run>
    var keys: map<(Id, string), Id>
    var events: seq<Event>
    var approvals: seq<Approval>
    var effects: map<string, EffectRow>

    function T(): Tables
      reads this
    {
      Tables(runs, keys, events, approvals, effects)
    }

    constructor ()
      ensures T() == EMPTY
    {
      runs, keys, events, approvals, effects := map[], map[], [], [], map[];
    }

    /** Insert, or find the run the duplicate trigger belongs to. An id clash
        without a key clash finds no run: the program's assertion fails. */
    method CreateOrGetRun(run: Run) returns (found: Option<Run>, created: bool)
      modifies this
      ensures T() == CreateRun(old(T()), run)
      ensures created == Fresh(old(T()), run)
      ensures created ==> found == Some(run)
      ensures !created && (run.info.tenant, run.info.key) in keys && keys[(run.info.tenant, run.info.key)] in runs ==>
                found == Some(runs[keys[(run.info.tenant, run.info.key)]])
      ensures !created && (run.info.tenant, run.info.key) !in keys ==> found == None
      ensures created <==> run.info.id !in old(runs) && (run.info.tenant, run.info.key) !in old(keys)
      ensures created ==> runs == old(runs)[run.info.id := run] && keys == old(keys)[(run.info.tenant, run.info.key) := run.info.id]
      ensures !created ==> runs == old(runs) && keys == old(keys)
      ensures events == old(events) && approvals == old(approvals) && effects == old(effects)
    {
      created := run.info.id !in runs && (run.info.tenant, run.info.key) !in keys;
      if created {
        runs := runs[run.info.id := run];
        keys := keys[(run.info.tenant, run.info.key) := run.info.id];
        return Some(run), true;
      }
      found := None;
      if (run.info.tenant, run.info.key) in keys && keys[(run.info.tenant, run.info.key)] in runs {
        found := Some(runs[keys[(run.info.tenant, run.info.key)]]);
      }
    }

    method LoadRun(tenant: Id, id: Id) returns (ok: bool, run: Option<Run>)
      ensures ok <==> (id in runs ==> runs[id].info.tenant == tenant)
      ensures run == if ok && id in runs then Some(runs[id]) else None
    {
      if id !in runs { return true, None; }
      ok := runs[id].info.tenant == tenant;
      run := if ok then Some(runs[id]) else None;
    }

    /** One transaction: update the row, insert the events one by one, and roll
        everything back if one of them belongs to another tenant. */
    method Checkpoint(run: Run, evs: seq<Event>) returns (ok: bool)
      modifies this
      ensures ok <==> S.Checkpoint(old(T()), run, evs).Some?
      ensures T() == if ok then S.Checkpoint(old(T()), run, evs).value else old(T())
      ensures ok <==>
                && (run.info.id in old(runs) ==> old(runs)[run.info.id].info.tenant == run.info.tenant)
                && forall i :: 0 <= i < |evs| ==> evs[i].tenant == run.info.tenant
      ensures keys == old(keys) && approvals == old(approvals) && effects == old(effects)
      ensures events == if ok then old(events) + evs else old(events)
      ensures !ok || run.info.id !in old(runs) ==> runs == old(runs)
      ensures ok && run.info.id in old(runs) ==>
                && runs.Keys == old(runs).Keys
                && (forall r :: r in runs && r != run.info.id ==> runs[r] == old(runs)[r])
                && runs[run.info.id].info == old(runs)[run.info.id].info
                && runs[run.info.id].status == run.status && runs[run.info.id].cursor == run.cursor
                && runs[run.info.id].context == run.context && runs[run.info.id].cost == run.cost
                && runs[run.info.id].steps == run.steps && runs[run.info.id].result == run.result
    {
      if run.info.id in runs && runs[run.info.id].info.tenant != run.info.tenant { return false; }
      var savedRuns, savedEvents := runs, events;
      if run.info.id in runs {
        runs := runs[run.info.id := Updated(runs[run.info.id], run)];
      }
      var i := 0;
      while i < |evs|
        invariant 0 <= i <= |evs|
        invariant AllOf(evs[..i], run.info.tenant)
        invariant events == savedEvents + evs[..i]
        invariant runs == if run.info.id in savedRuns then savedRuns[run.info.id := Updated(savedRuns[run.info.id], run)] else savedRuns
        invariant keys == old(keys) && approvals == old(approvals) && effects == old(effects)
      {
        if evs[i].tenant != run.info.tenant {
          runs, events := savedRuns, savedEvents;
          return false;
        }
        events := events + [evs[i]];
        assert evs[..i + 1] == evs[..i] + [evs[i]];
        i := i + 1;
      }
      assert evs[..i] == evs;
      ok := true;
    }

    method CancelRun(tenant: Id, run: Id) returns (ok: bool, canceled: bool)
      modifies this
      ensures ok <==> S.CancelRun(old(T()), tenant, run).Some?
      ensures ok ==> S.CancelRun(old(T()), tenant, run) == Some((T(), canceled))
      ensures !ok ==> T() == old(T())
      ensures canceled <==>
                run in old(runs) && old(runs)[run].info.tenant == tenant && !Terminal(old(runs)[run].status)
      ensures canceled ==>
                && ok && runs == old(runs)[run := old(runs)[run].(status := Canceled)]
                && events == old(events) + [Event(run, tenant, RunCanceled, None, 0.0, Obj(map[]))]
      ensures !canceled ==> runs == old(runs) && events == old(events)
      ensures keys == old(keys) && approvals == old(approvals) && effects == old(effects)
    {
      if run !in runs { return true, false; }
      if runs[run].info.tenant != tenant { return false, false; }
      if Terminal(runs[run].status) { return true, false; }
      runs := runs[run := runs[run].(status := Canceled)];
      events := events + [Event(run, tenant, RunCanceled, None, 0.0, PURGED)];
      return true, true;
    }

    /** The trace of one run, in order: only rows of this tenant. */
    method ListEvents(tenant: Id, run: Id) returns (ok: bool, found: seq<Event>)
      ensures ok <==> (run in runs ==> runs[run].info.tenant == tenant)
      ensures found == if ok then TraceOf(events, tenant, run) else []
    {
      if run in runs && runs[run].info.tenant != tenant { return false, []; }
      ok, found := true, [];
      var i := 0;
      while i < |events|
        invariant 0 <= i <= |events|
        invariant found == TraceOf(events[..i], tenant, run)
      {
        assert events[..i + 1][..i] == events[..i];
        if events[i].run == run && events[i].tenant == tenant {
          found := found + [events[i]];
        }
        i := i + 1;
      }
      assert events[..i] == events;
    }

    method GetEffect(tenant: Id, key: string) returns (r: Lookup)
      ensures r == S.GetEffect(T(), tenant, key)
      ensures key !in effects ==> r == Missing
      ensures key in effects ==> r == if effects[key].tenant == tenant then Found(effects[key].result) else Foreign
    {
      if key !in effects { return Missing; }
      if effects[key].tenant != tenant { return Foreign; }
      r := Found(effects[key].result);
    }

    method RecordEffect(key: string, row: EffectRow)
      modifies this
      ensures T() == S.RecordEffect(old(T()), key, row)
      ensures effects == if key in old(effects) then old(effects) else old(effects)[key := row]
      ensures runs == old(runs) && keys == old(keys) && events == old(events) && approvals == old(approvals)
    {
      if key !in effects {
        effects := effects[key := row];
      }
    }

    method CreateApproval(tenant: Id, run: Id, step: Id) returns (id: Option<nat>)
      modifies this
      ensures id.Some? <==> S.CreateApproval(old(T()), tenant, run, step).Some?
      ensures id.Some? ==> Some(T()) == S.CreateApproval(old(T()), tenant, run, step) &&
                           id.value == |old(approvals)|
      ensures id.None? ==> T() == old(T())
      ensures id.Some? <==> (run in old(runs) ==> old(runs)[run].info.tenant == tenant)
      ensures approvals == if id.Some? then old(approvals) + [Approval(run, tenant, step, ApprovalPending)] else old(approvals)
      ensures runs == old(runs) && keys == old(keys) && events == old(events) && effects == old(effects)
    {
      if run in runs && runs[run].info.tenant != tenant { return None; }
      id := Some(|approvals|);
      approvals := approvals + [Approval(run, tenant, step, ApprovalPending)];
    }

    method ResolveApproval(tenant: Id, id: nat, approved: bool) returns (ok: bool)
      modifies this
      ensures ok <==> S.ResolveApproval(old(T()), tenant, id, approved).Some?
      ensures ok ==> Some(T()) == S.ResolveApproval(old(T()), tenant, id, approved)
      ensures !ok ==> T() == old(T())
      ensures ok <==> id < |old(approvals)| && old(approvals)[id].tenant == tenant
      ensures |approvals| == |old(approvals)| && forall i :: 0 <= i < |approvals| ==>
                approvals[i] == if ok && i == id then old(approvals)[i].(status := if approved then Approved else Rejected)
                                else old(approvals)[i]
      ensures runs == old(runs) && keys == old(keys) && events == old(events) && effects == old(effects)
    {
      if |approvals| <= id || approvals[id].tenant != tenant { return false; }
      approvals := approvals[id := approvals[id].(status := if approved then Approved else Rejected)];
      ok := true;
    }

    /** Newest row first, as ORDER BY ... DESC LIMIT 1 reads them. */
    method LatestApproval(tenant: Id, run: Id, step: Id) returns (id: Option<nat>)
      ensures id == Latest(approvals, tenant, run, step)
      ensures id.Some? ==> id.value < |approvals| && approvals[id.value].tenant == tenant && approvals[id.value].run == run &&
                           approvals[id.value].step == step
      ensures forall j :: (if id.Some? then id.value + 1 else 0) <= j < |approvals| ==>
                approvals[j].tenant != tenant || approvals[j].run != run || approvals[j].step != step
    {
      var i := |approvals|;
      while i > 0
        invariant 0 <= i <= |approvals|
        invariant Latest(approvals, tenant, run, step) == Latest(approvals[..i], tenant, run, step)
      {
        if Concerns(approvals[i - 1], tenant, run, step) {
          return Some(i - 1);
        }
        assert approvals[..i][..i - 1] == approvals[..i - 1];
        i := i - 1;
      }
      id := None;
    }

    method PurgeEventPayloads(tenant: Id, stale: set<nat>)
      modifies this
      ensures T() == Purge(old(T()), tenant, stale)
      ensures |events| == |old(events)| && runs == old(runs) && keys == old(keys) && approvals == old(approvals) && effects == old(effects)
      ensures forall i :: 0 <= i < |events| ==>
                events[i] == if i in stale && old(events)[i].tenant == tenant then old(events)[i].(payload := Obj(map[]))
                             else old(events)[i]
    {
      var purged: seq<Event> := [];
      var i := 0;
      while i < |events|
        invariant 0 <= i <= |events| && |purged| == i && T() == old(T())
        invariant forall j :: 0 <= j < i ==>
          purged[j] == if j in stale && events[j].tenant == tenant then events[j].(payload := PURGED) else events[j]
      {
        purged := purged + [if i in stale && events[i].tenant == tenant then events[i].(payload := PURGED) else events[i]];
        i := i + 1;
      }
      events := purged;
    }
  }
}
