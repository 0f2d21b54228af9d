/** Arithmetic of event logs: sums, counts, and what leaves them alone. */
module Books {
  import opened Core
  import opened StoreSpec

  /** Left-to-right sum of the costs. */
  ghost function Sum(es: seq<Event>): real {
    if es == [] then 0.0 else Sum(es[..|es| - 1]) + es[|es| - 1].cost
  }

  /** Number of step entries. */
  ghost function Count(es: seq<Event>): nat {
    if es == [] then 0
    else Count(es[..|es| - 1]) + if es[|es| - 1].kind.StateTransition? then 1 else 0
  }

  ghost predicate Open(es: seq<Event>) {
    forall i :: 0 <= i < |es| ==> !Closing(es[i].kind)
  }

  ghost predicate Mine(es: seq<Event>, info: RunInfo) {
    forall i :: 0 <= i < |es| ==> es[i].run == info.id && es[i].tenant == info.tenant
  }

  /** Every step entry found the money spent and the steps taken within budget. */
  ghost predicate Gated(es: seq<Event>, budget: real, maxSteps: nat) {
    forall i :: 0 <= i < |es| && es[i].kind.StateTransition? ==> Sum(es[..i]) <= budget && Count(es[..i]) <= maxSteps
  }

  lemma {:induction false} Append(a: seq<Event>, b: seq<Event>)
    ensures Sum(a + b) == Sum(a) + Sum(b) && Count(a + b) == Count(a) + Count(b)
  {
    if b == [] {
      assert a + b == a;
    } else {
      var m := |b| - 1;
      assert (a + b)[..|a + b| - 1] == a + b[..m];
      Append(a, b[..m]);
    }
  }

  lemma One(e: Event)
    ensures Sum([e]) == e.cost && Count([e]) == if e.kind.StateTransition? then 1 else 0
  {
    assert [e][..0] == [];
  }

  lemma Two(e: Event, f: Event)
    ensures Sum([e, f]) == e.cost + f.cost
    ensures Count([e, f]) == (if e.kind.StateTransition? then 1 else 0) + if f.kind.StateTransition? then 1 else 0
  {
    assert [e, f] == [e] + [f];
    Append([e], [f]);
    One(e);
    One(f);
  }

  lemma GatedAppend(a: seq<Event>, b: seq<Event>, budget: real, maxSteps: nat)
    requires Gated(a, budget, maxSteps)
    requires Count(b) == 0 || (|b| == 1 && Sum(a) <= budget && Count(a) <= maxSteps)
    ensures Gated(a + b, budget, maxSteps)
  {
    forall i | 0 <= i < |a + b| && (a + b)[i].kind.StateTransition?
      ensures Sum((a + b)[..i]) <= budget && Count((a + b)[..i]) <= maxSteps
    {
      if i < |a| {
        assert (a + b)[..i] == a[..i];
      } else {
        CountPositive(b, i - |a|);
        assert (a + b)[..i] == a;
      }
    }
  }

  lemma {:induction false} CountPositive(es: seq<Event>, i: nat)
    requires i < |es| && es[i].kind.StateTransition?
    ensures Count(es) > 0
  {
    if i < |es| - 1 {
      CountPositive(es[..|es| - 1], i);
    }
  }

  /** Gating bounds the number of step entries. */
  lemma {:induction false} GatedCount(es: seq<Event>, budget: real, maxSteps: nat)
    requires Gated(es, budget, maxSteps)
    ensures Count(es) <= maxSteps + 1
  {
    if es != [] {
      var m := |es| - 1;
      if es[m].kind.StateTransition? {
      } else {
        assert forall i :: 0 <= i < m ==> es[..m][..i] == es[..i];
        GatedCount(es[..m], budget, maxSteps);
      }
    }
  }

  /** The last step entry: nothing after it is one. */
  ghost predicate LastEntry(es: seq<Event>, k: nat) {
    k < |es| && es[k].kind.StateTransition? && forall i :: k < i < |es| ==> !es[i].kind.StateTransition?
  }

  /** The log overshoots the budget only by what was booked since the last
      step entry. */
  lemma Overshoot(es: seq<Event>, budget: real, maxSteps: nat, k: nat)
    requires Gated(es, budget, maxSteps) && LastEntry(es, k)
    ensures Sum(es) <= budget + Sum(es[k..])
  {
    assert es == es[..k] + es[k..];
    Append(es[..k], es[k..]);
  }

  // ---- one run's events in the table -------------------------------------------

  lemma {:induction false} EventsAppend(a: seq<Event>, b: seq<Event>, r: Id)
    ensures EventsOf(a + b, r) == EventsOf(a, r) + EventsOf(b, r)
  {
    if b == [] {
      assert a + b == a;
    } else {
      var m := |b| - 1;
      assert (a + b)[..|a + b| - 1] == a + b[..m];
      EventsAppend(a, b[..m], r);
    }
  }

  lemma {:induction false} EventsMine(es: seq<Event>, info: RunInfo, r: Id)
    requires Mine(es, info)
    ensures EventsOf(es, r) == if r == info.id then es else []
  {
    if es != [] {
      EventsMine(es[..|es| - 1], info, r);
    }
  }

  // ---- purging payloads -------------------------------------------------------------

  ghost predicate Alike(a: seq<Event>, b: seq<Event>) {
    |a| == |b| && forall i :: 0 <= i < |a| ==> a[i].(payload := Null) == b[i].(payload := Null)
  }

  lemma {:induction false} AlikeBooks(a: seq<Event>, b: seq<Event>)
    requires Alike(a, b)
    ensures Sum(a) == Sum(b) && Count(a) == Count(b)
  {
    if a != [] {
      AlikeBooks(a[..|a| - 1], b[..|b| - 1]);
    }
  }

  lemma AlikeGated(a: seq<Event>, b: seq<Event>, budget: real, maxSteps: nat)
    requires Alike(a, b) && Gated(a, budget, maxSteps)
    ensures Gated(b, budget, maxSteps)
  {
    forall i | 0 <= i < |b| && b[i].kind.StateTransition?
      ensures Sum(b[..i]) <= budget && Count(b[..i]) <= maxSteps
    {
      AlikeBooks(a[..i], b[..i]);
      assert a[i].kind == b[i].kind by { assert a[i].(payload := Null) == b[i].(payload := Null); }
    }
  }

  lemma {:induction false} AlikeEvents(a: seq<Event>, b: seq<Event>, r: Id)
    requires Alike(a, b)
    ensures Alike(EventsOf(a, r), EventsOf(b, r))
  {
    if a != [] {
      AlikeEvents(a[..|a| - 1], b[..|b| - 1], r);
      assert a[|a| - 1].(payload := Null) == b[|a| - 1].(payload := Null);
    }
  }
}
