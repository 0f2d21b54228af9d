/** Where a step leads, said without the engine: the edges of the step graph. */
module Edges {
  import opened Core
  import opened Machine

  /** The arm is taken: it has no test, or its test is true. */
  ghost predicate Holds(arm: Arm, ctx: Dict) {
    arm.test.None? || arm.test.value(ctx) == Some(true)
  }

  ghost predicate Declines(arm: Arm, ctx: Dict) {
    arm.test.Some? && arm.test.value(ctx) == Some(false)
  }

  ghost predicate Raises(arm: Arm, ctx: Dict) {
    arm.test.Some? && arm.test.value(ctx).None?
  }

  /** The first `k` arms all answer false. */
  ghost predicate Passed(arms: seq<Arm>, ctx: Dict, k: nat) {
    k <= |arms| && forall j :: 0 <= j < k ==> Declines(arms[j], ctx)
  }

  /** Arm `k` is the first that does not answer false, and it is taken. */
  ghost predicate Takes(arms: seq<Arm>, ctx: Dict, k: nat) {
    k < |arms| && Passed(arms, ctx, k) && Holds(arms[k], ctx)
  }

  /** The first arm that does not answer false is one whose test raises. */
  ghost predicate TestRaises(arms: seq<Arm>, ctx: Dict) {
    exists k: nat :: k < |arms| && Passed(arms, ctx, k) && Raises(arms[k], ctx)
  }

  /** The edge out of a step: the one written for agent, tool and approval nodes,
      the taken arm or else the written edge for branches, and none for the end. */
  ghost predicate EdgeOf(step: Step, ctx: Dict, next: Option<Id>) {
    match step.node
    case AgentNode(_) => next == step.next
    case ToolNode(_) => next == step.next
    case ApprovalNode => next == step.next
    case BranchNode(arms) =>
      || (exists k: nat :: Takes(arms, ctx, k) && next == Some(arms[k].goto))
      || (Passed(arms, ctx, |arms|) && next == step.next)
    case TerminateNode => next == None
    case UnknownNode => false
  }

  lemma PassedTail(arms: seq<Arm>, ctx: Dict, k: nat)
    requires arms != [] && k > 0
    ensures Passed(arms, ctx, k) <==> Declines(arms[0], ctx) && Passed(arms[1..], ctx, k - 1)
  {
    if Declines(arms[0], ctx) && Passed(arms[1..], ctx, k - 1) {
      assert forall j :: 0 < j < k ==> arms[j] == arms[1..][j - 1];
    }
    if Passed(arms, ctx, k) {
      assert forall j :: 0 <= j < k - 1 ==> arms[1..][j] == arms[j + 1];
    }
  }

  /** The scan takes the arm that holds first. */
  lemma {:induction false} SelectTakes(arms: seq<Arm>, otherwise: Option<Id>, ctx: Dict, k: nat)
    requires Takes(arms, ctx, k)
    ensures Select(arms, otherwise, ctx) == Route(true, true, Some(arms[k].goto))
    decreases arms
  {
    if k > 0 {
      PassedTail(arms, ctx, k);
      SelectTakes(arms[1..], otherwise, ctx, k - 1);
    }
  }

  lemma {:induction false} SelectPasses(arms: seq<Arm>, otherwise: Option<Id>, ctx: Dict)
    requires Passed(arms, ctx, |arms|)
    ensures Select(arms, otherwise, ctx) == Route(true, false, otherwise)
    decreases arms
  {
    if arms != [] {
      PassedTail(arms, ctx, |arms|);
      SelectPasses(arms[1..], otherwise, ctx);
    }
  }

  lemma {:induction false} SelectStops(arms: seq<Arm>, otherwise: Option<Id>, ctx: Dict, k: nat)
    requires k < |arms| && Passed(arms, ctx, k) && Raises(arms[k], ctx)
    ensures !Select(arms, otherwise, ctx).ok
    decreases arms
  {
    if k > 0 {
      PassedTail(arms, ctx, k);
      SelectStops(arms[1..], otherwise, ctx, k - 1);
    }
  }

  /** One of the three is the case. */
  lemma {:induction false} ArmsDecide(arms: seq<Arm>, ctx: Dict)
    ensures Passed(arms, ctx, |arms|) || TestRaises(arms, ctx) || exists k: nat :: Takes(arms, ctx, k)
    decreases arms
  {
    if arms != [] && Declines(arms[0], ctx) {
      ArmsDecide(arms[1..], ctx);
      if Passed(arms[1..], ctx, |arms| - 1) {
        PassedTail(arms, ctx, |arms|);
      } else if TestRaises(arms[1..], ctx) {
        var k: nat :| k < |arms[1..]| && Passed(arms[1..], ctx, k) && Raises(arms[1..][k], ctx);
        PassedTail(arms, ctx, k + 1);
        assert Raises(arms[k + 1], ctx);
      } else {
        var k: nat :| Takes(arms[1..], ctx, k);
        PassedTail(arms, ctx, k + 1);
        assert Takes(arms, ctx, k + 1);
      }
    } else if arms != [] {
      assert Passed(arms, ctx, 0);
      if arms[0].test.None? {
        assert Takes(arms, ctx, 0);
      } else {
        match arms[0].test.value(ctx)
        case None => assert Raises(arms[0], ctx);
        case Some(b) => assert b ==> Takes(arms, ctx, 0);
      }
    }
  }

  /** The scan, without its recursion: what it answers in each of the three cases. */
  lemma SelectIs(arms: seq<Arm>, otherwise: Option<Id>, ctx: Dict)
    ensures !Select(arms, otherwise, ctx).ok <==> TestRaises(arms, ctx)
    ensures Select(arms, otherwise, ctx).ok ==>
              var r := Select(arms, otherwise, ctx);
              if r.hit then exists k: nat :: Takes(arms, ctx, k) && r.next == Some(arms[k].goto)
              else Passed(arms, ctx, |arms|) && r.next == otherwise
  {
    ArmsDecide(arms, ctx);
    if TestRaises(arms, ctx) {
      var k: nat :| k < |arms| && Passed(arms, ctx, k) && Raises(arms[k], ctx);
      SelectStops(arms, otherwise, ctx, k);
    } else if k: nat :| Takes(arms, ctx, k) {
      SelectTakes(arms, otherwise, ctx, k);
    } else {
      SelectPasses(arms, otherwise, ctx);
    }
  }
}
