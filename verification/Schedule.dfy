/** Triggers: the scheduler's firings, the idempotency key of a trigger, and
    deduplication of fires by the store. */
module Schedules {
  import opened Core
  import opened StoreSpec
  import opened Text
  import Cron

  // ---- the key of a trigger -----------------------------------------------------------------

  const KEY_FIELDS: seq<string> := ["idempotency_key", "message_id", "delivery_id", "id"]

  /** The first of the id fields that is set, as text; otherwise a hash. */
  function DeriveKeyFrom(fields: seq<string>, trigger: Dict, show: Json -> string, hash: Dict -> string): string {
    if fields == [] then "sha256:" + hash(trigger)
    else if Truthy(Get(trigger, fields[0])) then show(Get(trigger, fields[0]))
    else DeriveKeyFrom(fields[1..], trigger, show, hash)
  }

  /** The field is there, with something in it. */
  ghost predicate Set(trigger: Dict, field: string) {
    field in trigger && !Falsy(trigger[field])
  }

  lemma DerivesInOrder(trigger: Dict, show: Json -> string, hash: Dict -> string)
    ensures DeriveKeyFrom(KEY_FIELDS, trigger, show, hash) ==
            if Set(trigger, "idempotency_key") then show(trigger["idempotency_key"])
            else if Set(trigger, "message_id") then show(trigger["message_id"])
            else if Set(trigger, "delivery_id") then show(trigger["delivery_id"])
            else if Set(trigger, "id") then show(trigger["id"])
            else "sha256:" + hash(trigger)
  {
    var a, b, c := ["message_id", "delivery_id", "id"], ["delivery_id", "id"], ["id"];
    assert KEY_FIELDS[1..] == a && a[1..] == b && b[1..] == c && c[1..] == [];
    DerivesFirst(KEY_FIELDS, trigger, show, hash);
    DerivesFirst(a, trigger, show, hash);
    DerivesFirst(b, trigger, show, hash);
    DerivesFirst(c, trigger, show, hash);
  }

  lemma DerivesFirst(fields: seq<string>, trigger: Dict, show: Json -> string, hash: Dict -> string)
    requires fields != []
    ensures DeriveKeyFrom(fields, trigger, show, hash) ==
            if Set(trigger, fields[0]) then show(trigger[fields[0]]) else DeriveKeyFrom(fields[1..], trigger, show, hash)
  {
  }

  method DeriveIdempotencyKey(trigger: Dict, show: Json -> string, hash: Dict -> string) returns (key: string)
    ensures key == DeriveKeyFrom(KEY_FIELDS, trigger, show, hash)
    ensures Set(trigger, "idempotency_key") ==> key == show(trigger["idempotency_key"])
    ensures !Set(trigger, "idempotency_key") && Set(trigger, "message_id") ==> key == show(trigger["message_id"])
    ensures !Set(trigger, "idempotency_key") && !Set(trigger, "message_id") && Set(trigger, "delivery_id") ==>
              key == show(trigger["delivery_id"])
    ensures !Set(trigger, "idempotency_key") && !Set(trigger, "message_id") && !Set(trigger, "delivery_id") ==>
              key == if Set(trigger, "id") then show(trigger["id"]) else "sha256:" + hash(trigger)
  {
    DerivesInOrder(trigger, show, hash);
    var i := 0;
    while i < |KEY_FIELDS|
      invariant 0 <= i <= |KEY_FIELDS|
      invariant DeriveKeyFrom(KEY_FIELDS, trigger, show, hash) == DeriveKeyFrom(KEY_FIELDS[i..], trigger, show, hash)
    {
      if Truthy(Get(trigger, KEY_FIELDS[i])) {
        return show(Get(trigger, KEY_FIELDS[i]));
      }
      assert KEY_FIELDS[i..][1..] == KEY_FIELDS[i + 1..];
      i := i + 1;
    }
    key := "sha256:" + hash(trigger);
  }

  // ---- minutes ----------------------------------------------------------------------------------

  /** `weekday` counts from Monday. */
  datatype Now = Now(year: nat, month: nat, day: nat, hour: nat, minute: nat, weekday: int)

  /** A moment of the calendar, in any year. */
  predicate Calendar(t: Now) {
    1 <= t.month <= 12 && 1 <= t.day <= 31 && t.hour <= 23 && t.minute <= 59
  }

  function Two(n: nat): string {
    if n <= 99 then [Digit(n / 10), Digit(n % 10)] else Decimal(n)
  }

  /** The minute as text, `%Y-%m-%dT%H:%M`. */
  function Slot(t: Now): string {
    Decimal(t.year) + "-" + Two(t.month) + "-" + Two(t.day) + "T" + Two(t.hour) + ":" + Two(t.minute)
  }

  ghost predicate SameMinute(t: Now, u: Now) {
    t.year == u.year && t.month == u.month && t.day == u.day && t.hour == u.hour && t.minute == u.minute
  }

  lemma TwoInjective(m: nat, n: nat)
    requires m <= 99 && n <= 99 && Two(m) == Two(n)
    ensures m == n
  {
    assert Two(m)[0] == Two(n)[0] && Two(m)[1] == Two(n)[1];
    DigitInjective(m / 10, n / 10);
    DigitInjective(m % 10, n % 10);
  }

  lemma DigitInjective(m: nat, n: nat)
    requires m < 10 && n < 10 && Digit(m) == Digit(n)
    ensures m == n
  {
  }

  /** All of the slot but the year. */
  function WithinYear(t: Now): string {
    "-" + Two(t.month) + "-" + Two(t.day) + "T" + Two(t.hour) + ":" + Two(t.minute)
  }

  lemma SlotParts(t: Now)
    requires Calendar(t)
    ensures Slot(t) == Decimal(t.year) + WithinYear(t)
    ensures var s := WithinYear(t);
            && |s| == 12 && s[1..3] == Two(t.month) && s[4..6] == Two(t.day)
            && s[7..9] == Two(t.hour) && s[10..12] == Two(t.minute)
  {
  }

  lemma SlotInjective(t: Now, u: Now)
    requires Calendar(t) && Calendar(u) && Decimal(t.year) == Decimal(u.year) && WithinYear(t) == WithinYear(u)
    ensures SameMinute(t, u)
  {
    SlotParts(t);
    SlotParts(u);
    DecimalRoundTrip(t.year);
    DecimalRoundTrip(u.year);
    TwoInjective(t.month, u.month);
    TwoInjective(t.day, u.day);
    TwoInjective(t.hour, u.hour);
    TwoInjective(t.minute, u.minute);
  }

  /** The key a scheduled firing carries as its message id. */
  function ScheduleKey(id: Id, t: Now): string {
    "sched:" + id + ":" + Slot(t)
  }

  /** Two firings share a key exactly when they are for the same schedule and
      minute, whatever characters the ids hold. */
  lemma ScheduleKeyInjective(id: Id, t: Now, id': Id, u: Now)
    requires Calendar(t) && Calendar(u)
    ensures ScheduleKey(id, t) == ScheduleKey(id', u) <==> id == id' && SameMinute(t, u)
  {
    SlotParts(t);
    SlotParts(u);
    var x, y := Decimal(t.year), Decimal(u.year);
    assert ScheduleKey(id, t) == (("sched:" + id) + [':'] + x) + WithinYear(t);
    assert ScheduleKey(id', u) == (("sched:" + id') + [':'] + y) + WithinYear(u);
    if ScheduleKey(id, t) == ScheduleKey(id', u) {
      SameTail(("sched:" + id) + [':'] + x, WithinYear(t), ("sched:" + id') + [':'] + y, WithinYear(u));
      DecimalRoundTrip(t.year);
      DecimalRoundTrip(u.year);
      LastPart("sched:" + id, x, "sched:" + id', y, ':');
      assert ("sched:" + id)[6..] == id && ("sched:" + id')[6..] == id';
      SlotInjective(t, u);
    }
  }

  lemma SameTail(p: string, s: string, q: string, r: string)
    requires |s| == |r| && p + s == q + r
    ensures p == q && s == r
  {
    assert (p + s)[..|p|] == p && (q + r)[..|q|] == q;
    assert (p + s)[|p|..] == s && (q + r)[|q|..] == r;
  }

  // ---- the scheduler --------------------------------------------------------------------------------

  datatype Schedule = Schedule(id: Id, tenant: Id, workflow: Id, cron: string, enabled: bool)

  function MomentOf(t: Now): Cron.Moment {
    Cron.Moment(t.minute, t.hour, t.day, t.month, t.weekday)
  }

  /** What looking at one schedule gives: whether it is due, or nothing if its
      expression raises; a disabled one is not looked at. */
  ghost function Glance(t: Now): Schedule -> Option<bool> {
    (s: Schedule) => if s.enabled then Cron.Matches(s.cron, MomentOf(t)) else Some(false)
  }

  ghost function Picked(ss: seq<Schedule>, glance: Schedule -> Option<bool>): Option<seq<Schedule>> {
    if ss == [] then Some([])
    else
      var n := |ss| - 1;
      var before, hit := Picked(ss[..n], glance), glance(ss[n]);
      if before.None? || hit.None? then None else Some(before.value + if hit.value then [ss[n]] else [])
  }

  /** The due schedules, in order; a malformed expression of an enabled one
      raises before anything is fired. */
  ghost function Due(ss: seq<Schedule>, t: Now): Option<seq<Schedule>> {
    Picked(ss, Glance(t))
  }

  function Trigger(s: Schedule, t: Now): Dict {
    map["source" := Str("schedule"), "schedule_id" := Str(s.id), "fired_for" := Str(Slot(t)),
        "message_id" := Str(ScheduleKey(s.id, t))]
  }

  class Scheduler {
    var schedules: seq<Schedule>

    constructor (schedules: seq<Schedule>)
      ensures this.schedules == schedules
    {
      this.schedules := schedules;
    }

    method DueNow(t: Now) returns (r: Option<seq<Schedule>>)
      ensures r == Due(schedules, t)
    {
      var out: seq<Schedule> := [];
      var i := 0;
      while i < |schedules|
        invariant 0 <= i <= |schedules|
        invariant Due(schedules[..i], t) == Some(out)
      {
        assert schedules[..i + 1][..i] == schedules[..i] && out + [] == out;
        if schedules[i].enabled {
          var hit := Cron.CronMatches(schedules[i].cron, MomentOf(t));
          if hit.None? {
            DueRaises(schedules, i, t);
            return None;
          }
          if hit.value {
            out := out + [schedules[i]];
          }
        }
        i := i + 1;
      }
      assert schedules[..i] == schedules;
      r := Some(out);
    }

    /** The firings of one tick: one per due schedule, each with its trigger. */
    method Tick(t: Now) returns (fired: Option<seq<(Schedule, Dict)>>)
      ensures fired.Some? <==> Due(schedules, t).Some?
      ensures fired.Some? ==>
                && |fired.value| == |Due(schedules, t).value|
                && forall i :: 0 <= i < |fired.value| ==>
                     var s := Due(schedules, t).value[i];
                     && fired.value[i] == (s, Trigger(s, t))
                     && fired.value[i].1["schedule_id"] == Str(s.id) && fired.value[i].1["fired_for"] == Str(Slot(t))
                     && fired.value[i].1["message_id"] == Str("sched:" + s.id + ":" + Slot(t))
                     && fired.value[i].1["source"] == Str("schedule")
    {
      var due := DueNow(t);
      if due.None? { return None; }
      var out: seq<(Schedule, Dict)> := [];
      var i := 0;
      while i < |due.value|
        invariant 0 <= i <= |due.value| && |out| == i
        invariant forall j :: 0 <= j < i ==> out[j] == (due.value[j], Trigger(due.value[j], t))
      {
        out := out + [(due.value[i], Trigger(due.value[i], t))];
        i := i + 1;
      }
      fired := Some(out);
    }
  }

  ghost predicate Selects(ss: seq<Schedule>, at: seq<nat>, picked: seq<Schedule>) {
    && |at| == |picked| && (forall k :: 0 <= k < |at| ==> at[k] < |ss| && picked[k] == ss[at[k]])
    && (forall j, k :: 0 <= j < k < |at| ==> at[j] < at[k])
  }

  lemma {:induction false} PickedRaises(ss: seq<Schedule>, glance: Schedule -> Option<bool>)
    ensures Picked(ss, glance).None? <==> exists i :: 0 <= i < |ss| && glance(ss[i]).None?
  {
    if ss != [] {
      var n := |ss| - 1;
      PickedRaises(ss[..n], glance);
      assert forall i :: 0 <= i < n ==> ss[..n][i] == ss[i];
    }
  }

  ghost predicate Exactly(ss: seq<Schedule>, glance: Schedule -> Option<bool>, at: seq<nat>) {
    forall i :: 0 <= i < |ss| ==> (i in at <==> glance(ss[i]) == Some(true))
  }

  lemma {:induction false} PickedExactly(ss: seq<Schedule>, glance: Schedule -> Option<bool>) returns (at: seq<nat>)
    requires Picked(ss, glance).Some?
    ensures Selects(ss, at, Picked(ss, glance).value) && Exactly(ss, glance, at)
  {
    at := [];
    if ss != [] {
      var n := |ss| - 1;
      at := PickedExactly(ss[..n], glance);
      OneMore(ss, glance, at);
      if glance(ss[n]) == Some(true) { at := at + [n]; }
    }
  }

  lemma OneMore(ss: seq<Schedule>, glance: Schedule -> Option<bool>, at: seq<nat>)
    requires ss != [] && forall k :: 0 <= k < |at| ==> at[k] < |ss| - 1
    requires Exactly(ss[..|ss| - 1], glance, at)
    ensures Exactly(ss, glance, if glance(ss[|ss| - 1]) == Some(true) then at + [|ss| - 1] else at)
  {
    var n := |ss| - 1;
    assert forall i :: 0 <= i < n ==> ss[..n][i] == ss[i];
  }

  /** The due schedules are exactly the enabled ones whose expression matches, in
      their order; and looking for them raises exactly when an enabled one is
      malformed. */
  lemma DueExactly(ss: seq<Schedule>, t: Now) returns (at: seq<nat>)
    ensures Due(ss, t).None? <==> exists i :: 0 <= i < |ss| && ss[i].enabled && Cron.Matches(ss[i].cron, MomentOf(t)).None?
    ensures Due(ss, t).Some? ==>
              Selects(ss, at, Due(ss, t).value) &&
              forall i :: 0 <= i < |ss| ==> (i in at <==> ss[i].enabled && Cron.Matches(ss[i].cron, MomentOf(t)) == Some(true))
  {
    PickedRaises(ss, Glance(t));
    at := [];
    if Due(ss, t).Some? { at := PickedExactly(ss, Glance(t)); }
    if i :| 0 <= i < |ss| && Glance(t)(ss[i]).None? { assert ss[i].enabled; }
    if i :| 0 <= i < |ss| && ss[i].enabled && Cron.Matches(ss[i].cron, MomentOf(t)).None? { assert Glance(t)(ss[i]).None?; }
  }

  lemma {:induction false} DueRaises(ss: seq<Schedule>, i: nat, t: Now)
    requires i < |ss| && ss[i].enabled && Cron.Matches(ss[i].cron, MomentOf(t)).None?
    ensures Due(ss, t).None?
  {
    if i < |ss| - 1 { DueRaises(ss[..|ss| - 1], i, t); }
  }

  /** The run of a scheduled firing gets the schedule's key. */
  lemma TriggerKey(s: Schedule, t: Now, show: Json -> string, hash: Dict -> string)
    requires forall x :: show(Str(x)) == x
    ensures DeriveKeyFrom(KEY_FIELDS, Trigger(s, t), show, hash) == ScheduleKey(s.id, t)
  {
    assert KEY_FIELDS[1..][0] == "message_id";
    assert |ScheduleKey(s.id, t)| > 0;
  }

  // ---- deduplication ------------------------------------------------------------------------------------

  /** One fire of a trigger (by any replica), or any other store operation. */
  datatype Deed = Fires(run: Run) | Other(op: Op)

  function Done(t: Tables, d: Deed): Tables {
    match d
    case Fires(run) => CreateRun(t, run)
    case Other(op) => if op.OpCreate? then t else Do(t, op)
  }

  function After(ds: seq<Deed>): Tables {
    if ds == [] then EMPTY else Done(After(ds[..|ds| - 1]), ds[|ds| - 1])
  }

  function KeyOf(run: Run): (Id, string) { (run.info.tenant, run.info.key) }

  /** Whether fire `i` created a run, and the id it returned. */
  predicate Created(ds: seq<Deed>, i: nat)
    requires i < |ds| && ds[i].Fires?
  {
    Fresh(After(ds[..i]), ds[i].run)
  }

  function Returned(ds: seq<Deed>, i: nat): Option<Id>
    requires i < |ds| && ds[i].Fires?
  {
    var t := After(ds[..i + 1]);
    if Created(ds, i) then Some(ds[i].run.info.id)
    else if KeyOf(ds[i].run) in t.keys then Some(t.keys[KeyOf(ds[i].run)])
    else None
  }

  /** Run ids are generated: no two fires bring the same one. */
  ghost predicate DistinctIds(ds: seq<Deed>) {
    forall i, j :: 0 <= i < j < |ds| && ds[i].Fires? && ds[j].Fires? ==> ds[i].run.info.id != ds[j].run.info.id
  }

  ghost predicate FiredBefore(ds: seq<Deed>, n: nat, k: (Id, string)) {
    exists i :: 0 <= i < n <= |ds| && ds[i].Fires? && KeyOf(ds[i].run) == k
  }

  /** The first fire of a key. */
  ghost predicate IsFirst(ds: seq<Deed>, i: nat) {
    i < |ds| && ds[i].Fires? && !FiredBefore(ds, i, KeyOf(ds[i].run))
  }

  /** The index and the runs are those of the first fires. */
  ghost predicate Tabled(ds: seq<Deed>, t: Tables) {
    && (forall i: nat :: IsFirst(ds, i) ==> Holds(t, ds[i].run))
    && (forall k :: k in t.keys ==> FiredBefore(ds, |ds|, k))
    && (forall r :: r in t.runs ==> t.runs[r].info.id == r && Brought(ds, r))
  }

  ghost predicate Holds(t: Tables, run: Run) {
    && KeyOf(run) in t.keys && t.keys[KeyOf(run)] == run.info.id
    && run.info.id in t.runs && t.runs[run.info.id].info == run.info
  }

  ghost predicate Brought(ds: seq<Deed>, r: Id) {
    exists i :: 0 <= i < |ds| && ds[i].Fires? && ds[i].run.info.id == r
  }

  lemma {:induction false} FirstExists(ds: seq<Deed>, n: nat, k: (Id, string)) returns (i: nat)
    requires FiredBefore(ds, n, k)
    ensures i < n && IsFirst(ds, i) && KeyOf(ds[i].run) == k
  {
    i :| 0 <= i < n <= |ds| && ds[i].Fires? && KeyOf(ds[i].run) == k;
    if FiredBefore(ds, i, k) { i := FirstExists(ds, i, k); }
  }

  lemma FirstShrinks(ds: seq<Deed>, n: nat, i: nat)
    requires n <= |ds| && i < n
    ensures IsFirst(ds[..n], i) <==> IsFirst(ds, i)
  {
    if ds[i].Fires? {
      var k := KeyOf(ds[i].run);
      if FiredBefore(ds, i, k) {
        var j :| 0 <= j < i && ds[j].Fires? && KeyOf(ds[j].run) == k;
        assert ds[..n][j] == ds[j];
      }
      if FiredBefore(ds[..n], i, k) {
        var j :| 0 <= j < i && ds[..n][j].Fires? && KeyOf(ds[..n][j].run) == k;
        assert ds[..n][j] == ds[j];
      }
    }
  }

  lemma OtherKeeps(t: Tables, d: Deed)
    requires d.Other? && forall r :: r in t.runs ==> t.runs[r].info.id == r
    ensures var t' := Done(t, d);
            && t'.keys == t.keys && t'.runs.Keys == t.runs.Keys
            && (forall r :: r in t.runs ==> t'.runs[r].info == t.runs[r].info)
  {
  }

  /** With generated ids, a fire is fresh exactly when its key is. */
  lemma FreshIsFirst(ds: seq<Deed>, n: nat)
    requires DistinctIds(ds) && n < |ds| && ds[n].Fires? && Tabled(ds[..n], After(ds[..n]))
    ensures Fresh(After(ds[..n]), ds[n].run) <==> IsFirst(ds, n)
    ensures !IsFirst(ds, n) ==> KeyOf(ds[n].run) in After(ds[..n]).keys
  {
    var t, run := After(ds[..n]), ds[n].run;
    assert run.info.id !in t.runs;
    if KeyOf(run) in t.keys {
      var i :| 0 <= i < n && ds[..n][i].Fires? && KeyOf(ds[..n][i].run) == KeyOf(run);
      assert ds[i] == ds[..n][i];
    }
    if !IsFirst(ds, n) {
      var i := FirstExists(ds, n, KeyOf(run));
      FirstShrinks(ds, n, i);
      assert ds[..n][i] == ds[i];
    }
  }

  lemma TabledGrows(ds: seq<Deed>, t: Tables, t': Tables)
    requires ds != [] && Tabled(ds[..|ds| - 1], t)
    requires var d := ds[|ds| - 1];
             && (forall k :: k in t'.keys ==> k in t.keys || (d.Fires? && KeyOf(d.run) == k))
             && (forall r :: r in t'.runs ==> r in t.runs || (d.Fires? && d.run.info.id == r))
             && (forall r :: r in t'.runs ==> t'.runs[r].info.id == r)
    requires forall run :: Holds(t, run) ==> Holds(t', run)
    requires IsFirst(ds, |ds| - 1) ==> Holds(t', ds[|ds| - 1].run)
    ensures Tabled(ds, t')
  {
    var n := |ds| - 1;
    var before := ds[..n];
    forall i: nat | IsFirst(ds, i) ensures Holds(t', ds[i].run) {
      if i < n { FirstShrinks(ds, n, i); assert before[i] == ds[i]; }
    }
    forall k | k in t'.keys ensures FiredBefore(ds, |ds|, k) {
      if k in t.keys {
        var i :| 0 <= i < n && before[i].Fires? && KeyOf(before[i].run) == k;
        assert ds[i] == before[i];
      } else {
        assert ds[n].Fires?;
      }
    }
    forall r | r in t'.runs ensures Brought(ds, r) {
      if r in t.runs {
        var i :| 0 <= i < n && before[i].Fires? && before[i].run.info.id == r;
        assert ds[i] == before[i];
      } else {
        assert ds[n].Fires?;
      }
    }
  }

  lemma {:induction false} AlwaysTabled(ds: seq<Deed>)
    requires DistinctIds(ds)
    ensures Tabled(ds, After(ds))
  {
    if ds != [] {
      var n := |ds| - 1;
      var t := After(ds[..n]);
      AlwaysTabled(ds[..n]);
      DeedTabled(ds, t);
    }
  }

  lemma DeedTabled(ds: seq<Deed>, t: Tables)
    requires DistinctIds(ds) && ds != [] && t == After(ds[..|ds| - 1]) && Tabled(ds[..|ds| - 1], t)
    ensures Tabled(ds, Done(t, ds[|ds| - 1]))
  {
    var n := |ds| - 1;
    if ds[n].Fires? { FiresTabled(ds, t); } else { OtherTabled(ds, t); }
  }

  lemma FiresTabled(ds: seq<Deed>, t: Tables)
    requires DistinctIds(ds) && ds != [] && t == After(ds[..|ds| - 1]) && Tabled(ds[..|ds| - 1], t)
    requires ds[|ds| - 1].Fires?
    ensures Tabled(ds, Done(t, ds[|ds| - 1]))
  {
    FreshIsFirst(ds, |ds| - 1);
    TabledGrows(ds, t, Done(t, ds[|ds| - 1]));
  }

  lemma OtherTabled(ds: seq<Deed>, t: Tables)
    requires ds != [] && Tabled(ds[..|ds| - 1], t) && ds[|ds| - 1].Other?
    ensures Tabled(ds, Done(t, ds[|ds| - 1]))
  {
    OtherKeeps(t, ds[|ds| - 1]);
    TabledGrows(ds, t, Done(t, ds[|ds| - 1]));
  }

  /** The run a fire returns is the one its key's first fire brought. */
  lemma ReturnsFirst(ds: seq<Deed>, i: nat) returns (first: nat)
    requires DistinctIds(ds) && i < |ds| && ds[i].Fires?
    ensures first <= i && IsFirst(ds, first) && KeyOf(ds[first].run) == KeyOf(ds[i].run)
    ensures Returned(ds, i) == Some(ds[first].run.info.id)
    ensures Created(ds, i) <==> first == i
  {
    assert DistinctIds(ds[..i]) && DistinctIds(ds[..i + 1]);
    AlwaysTabled(ds[..i]);
    AlwaysTabled(ds[..i + 1]);
    FreshIsFirst(ds, i);
    if IsFirst(ds, i) {
      first := i;
    } else {
      first := FirstExists(ds, i, KeyOf(ds[i].run));
      FirstShrinks(ds, i + 1, first);
      assert ds[..i + 1][first] == ds[first];
    }
  }

  /** Over any interleaving of fires and other operations: exactly the first fire
      of a tenant's key creates a run, two fires return the same run exactly when
      they are of the same tenant and key, and the run's identity never changes. */
  lemma OneRunPerKey(ds: seq<Deed>, i: nat, j: nat)
    requires DistinctIds(ds) && i < |ds| && j < |ds| && ds[i].Fires? && ds[j].Fires?
    ensures Created(ds, i) <==> !FiredBefore(ds, i, KeyOf(ds[i].run))
    ensures Returned(ds, i).Some? && (Returned(ds, i) == Returned(ds, j) <==> KeyOf(ds[i].run) == KeyOf(ds[j].run))
    ensures Created(ds, i) ==>
              var id, t := ds[i].run.info.id, After(ds); id in t.runs && t.runs[id].info == ds[i].run.info
  {
    var a := ReturnsFirst(ds, i);
    var b := ReturnsFirst(ds, j);
    assert a < b ==> ds[a].run.info.id != ds[b].run.info.id;
    assert b < a ==> ds[b].run.info.id != ds[a].run.info.id;
    if KeyOf(ds[i].run) == KeyOf(ds[j].run) {
      assert !FiredBefore(ds, b, KeyOf(ds[a].run)) && !FiredBefore(ds, a, KeyOf(ds[b].run));
    }
    AlwaysTabled(ds);
  }

  /** Once per slot: however many replicas tick, however often, two scheduled
      firings of a tenant lead to the same run exactly when they are for the same
      schedule and minute. */
  lemma OncePerSlot(ds: seq<Deed>, i: nat, j: nat, id: Id, t: Now, id': Id, u: Now)
    requires DistinctIds(ds) && i < |ds| && j < |ds| && ds[i].Fires? && ds[j].Fires?
    requires Calendar(t) && Calendar(u) && ds[i].run.info.tenant == ds[j].run.info.tenant
    requires ds[i].run.info.key == ScheduleKey(id, t) && ds[j].run.info.key == ScheduleKey(id', u)
    ensures Returned(ds, i).Some? && (Returned(ds, i) == Returned(ds, j) <==> id == id' && SameMinute(t, u))
  {
    OneRunPerKey(ds, i, j);
    ScheduleKeyInjective(id, t, id', u);
  }
}
