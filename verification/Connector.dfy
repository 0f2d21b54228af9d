/** Connector reliability: bounded retries with exponential backoff, and a
    circuit breaker that sheds load from a failing dependency. */
module Connectors {
  import opened Core

  datatype Config = Config(maxRetries: int, base: real, cap: real, threshold: int, reset: real)

  // ---- what an operation may answer ------------------------------------------------------

  /** `Rejected` is a connector error that is not transient, `Unknown` any other
      exception. */
  datatype Answer = Value(v: Json) | TimedOut | Transient | Rejected | Unknown

  /** One invocation: how it went and the clock when that was noticed. */
  datatype Reply = Reply(answer: Answer, at: real)

  predicate Retryable(a: Answer) { a.TimedOut? || a.Transient? }

  predicate Failure(a: Answer) { Retryable(a) || a.Unknown? }

  datatype Verdict = Returned(v: Json) | CircuitOpen | GaveUp(last: Answer) | NotRetried | AssertionFailed

  // ---- the breaker -----------------------------------------------------------------------

  datatype Breaker = Breaker(failures: nat, openedAt: Option<real>)

  const CLOSED := Breaker(0, None)

  predicate Allows(cfg: Config, b: Breaker, now: real) {
    b.openedAt.Some? ==> now - b.openedAt.value >= cfg.reset
  }

  function Recorded(cfg: Config, b: Breaker, r: Reply): Breaker {
    if r.answer.Value? then CLOSED
    else if r.answer.Rejected? then b
    else Breaker(b.failures + 1, if b.failures + 1 >= cfg.threshold then Some(r.at) else b.openedAt)
  }

  function RecordedAll(cfg: Config, b: Breaker, rs: seq<Reply>): Breaker {
    if rs == [] then b else Recorded(cfg, RecordedAll(cfg, b, rs[..|rs| - 1]), rs[|rs| - 1])
  }

  class CircuitBreaker {
    const cfg: Config
    var failures: nat
    var openedAt: Option<real>

    function State(): Breaker
      reads this
    {
      Breaker(failures, openedAt)
    }

    constructor (cfg: Config)
      ensures this.cfg == cfg && State() == CLOSED
    {
      this.cfg, failures, openedAt := cfg, 0, None;
    }

    /** Only a breaker that has been open for less than the cooldown refuses. */
    method Allow(now: real) returns (ok: bool)
      ensures ok == Allows(cfg, State(), now)
      ensures ok <==> openedAt.None? || openedAt.value + cfg.reset <= now
    {
      if openedAt.None? { return true; }
      if now - openedAt.value >= cfg.reset { return true; }
      ok := false;
    }

    method RecordSuccess()
      modifies this
      ensures State() == CLOSED
    {
      failures, openedAt := 0, None;
    }

    method RecordFailure(now: real)
      modifies this
      ensures failures == old(failures) + 1
      ensures openedAt == if failures >= cfg.threshold then Some(now) else old(openedAt)
    {
      failures := failures + 1;
      if failures >= cfg.threshold {
        openedAt := Some(now);
      }
    }
  }

  // ---- what the breaker remembers -----------------------------------------------------------

  /** Failures since the last success. */
  function Streak(rs: seq<Reply>): nat {
    if rs == [] then 0
    else
      var last := rs[|rs| - 1].answer;
      if last.Value? then 0 else Streak(rs[..|rs| - 1]) + if last.Rejected? then 0 else 1
  }

  /** Over any history of replies, the breaker is open exactly when the failures
      since the last success reach the threshold, and it is stamped with a reply
      of that streak. */
  lemma {:induction false} TrippedIff(cfg: Config, rs: seq<Reply>)
    requires cfg.threshold >= 1
    ensures var b := RecordedAll(cfg, CLOSED, rs);
            && b.failures == Streak(rs)
            && (b.openedAt.Some? <==> Streak(rs) >= cfg.threshold)
            && (b.openedAt.Some? ==> exists i :: 0 <= i < |rs| && Failure(rs[i].answer) && rs[i].at == b.openedAt.value)
  {
    if rs != [] {
      var n := |rs| - 1;
      TrippedIff(cfg, rs[..n]);
      var b0, b := RecordedAll(cfg, CLOSED, rs[..n]), RecordedAll(cfg, CLOSED, rs);
      if b.openedAt.Some? && b.openedAt == b0.openedAt {
        var i :| 0 <= i < n && Failure(rs[..n][i].answer) && rs[..n][i].at == b0.openedAt.value;
        assert rs[i] == rs[..n][i];
      }
    }
  }

  /** A threshold below one breaks that: a fresh breaker is closed although no
      failure at all is needed. */
  lemma TrippedNeedsThreshold(cfg: Config)
    ensures (forall rs: seq<Reply> ::
               RecordedAll(cfg, CLOSED, rs).openedAt.Some? <==> Streak(rs) >= cfg.threshold) <==> cfg.threshold >= 1
  {
    if cfg.threshold >= 1 {
      forall rs: seq<Reply> ensures RecordedAll(cfg, CLOSED, rs).openedAt.Some? <==> Streak(rs) >= cfg.threshold {
        TrippedIff(cfg, rs);
      }
    } else {
      var none: seq<Reply> := [];
      assert RecordedAll(cfg, CLOSED, none) == CLOSED && Streak(none) == 0;
      assert !(RecordedAll(cfg, CLOSED, none).openedAt.Some? <==> Streak(none) >= cfg.threshold);
    }
  }

  // ---- one call ------------------------------------------------------------------------------

  function Replies(reply: nat -> Reply, n: nat): seq<Reply> {
    seq(n, i requires 0 <= i => reply(i))
  }

  /** Invocations a call makes that has already made `i`. */
  function Attempts(maxRetries: int, reply: nat -> Reply, i: nat): nat
    decreases maxRetries - i
  {
    if i > maxRetries then i
    else if !Retryable(reply(i).answer) then i + 1
    else Attempts(maxRetries, reply, i + 1)
  }

  /** Exactly up to the first answer that is not transient, and never more than
      `maxRetries + 1`. */
  lemma {:induction false} AttemptsExact(maxRetries: int, reply: nat -> Reply, i: nat)
    requires i <= maxRetries + 1
    ensures var n := Attempts(maxRetries, reply, i);
            && i <= n <= maxRetries + 1
            && (forall k :: i <= k < n - 1 ==> reply(k).answer.TimedOut? || reply(k).answer.Transient?)
            && (n > i && (reply(n - 1).answer.TimedOut? || reply(n - 1).answer.Transient?) ==> n == maxRetries + 1)
            && (i <= maxRetries ==> n > i)
    decreases maxRetries - i
  {
    if i <= maxRetries && Retryable(reply(i).answer) {
      AttemptsExact(maxRetries, reply, i + 1);
    }
  }

  function Pow2(i: nat): nat {
    if i == 0 then 1 else 2 * Pow2(i - 1)
  }

  function Min(a: real, b: real): real { if a <= b then a else b }

  function Scaled(x: real, n: int): real { n as real * x }

  function Delay(cfg: Config, i: nat): real {
    Min(Scaled(cfg.base, Pow2(i)), cfg.cap)
  }

  function Total(ds: seq<real>): real {
    if ds == [] then 0.0 else Total(ds[..|ds| - 1]) + ds[|ds| - 1]
  }

  class Connector {
    const cfg: Config
    const breaker: CircuitBreaker

    constructor (cfg: Config)
      ensures this.cfg == cfg && breaker.cfg == cfg && breaker.State() == CLOSED && fresh(breaker)
    {
      this.cfg := cfg;
      breaker := new CircuitBreaker(cfg);
    }

    /** Invoke the operation until it answers something final or the retries
        are used up. `reply` is what the operation answers, `now` the clock at
        the start; `invoked` counts invocations, `slept` lists the pauses. */
    method Run(reply: nat -> Reply, now: real) returns (verdict: Verdict, invoked: nat, slept: seq<real>)
      requires breaker.cfg == cfg
      modifies breaker
      ensures !Allows(cfg, old(breaker.State()), now) ==> verdict == CircuitOpen && invoked == 0
      ensures Allows(cfg, old(breaker.State()), now) ==>
                invoked == Attempts(cfg.maxRetries, reply, 0) && verdict != CircuitOpen
      ensures breaker.State() == RecordedAll(cfg, old(breaker.State()), Replies(reply, invoked))
      ensures verdict == AssertionFailed <==> Allows(cfg, old(breaker.State()), now) && cfg.maxRetries < 0
      ensures invoked > 0 ==>
                var last := reply(invoked - 1).answer;
                verdict == match last
                           case Value(v) => Returned(v)
                           case Rejected => NotRetried
                           case _ => GaveUp(last)
      ensures forall k :: 0 <= k < invoked - 1 ==> reply(k).answer.TimedOut? || reply(k).answer.Transient?
      ensures verdict.GaveUp? && !verdict.last.Unknown? ==> invoked == cfg.maxRetries + 1
      ensures |slept| == if invoked == 0 then 0 else invoked - 1
      ensures forall i :: 0 <= i < |slept| ==> slept[i] == Delay(cfg, i)
    {
      slept := [];
      if cfg.maxRetries >= 0 { AttemptsExact(cfg.maxRetries, reply, 0); }
      var ok := breaker.Allow(now);
      if !ok { return CircuitOpen, 0, []; }
      var last: Option<Answer> := None;
      var attempt := 0;
      while attempt < cfg.maxRetries + 1
        invariant 0 <= attempt && (attempt > cfg.maxRetries ==> attempt == 0 || attempt == cfg.maxRetries + 1)
        invariant breaker.State() == RecordedAll(cfg, old(breaker.State()), Replies(reply, attempt))
        invariant Attempts(cfg.maxRetries, reply, 0) == Attempts(cfg.maxRetries, reply, attempt)
        invariant last == if attempt == 0 then None else Some(reply(attempt - 1).answer)
        invariant attempt > 0 ==> Retryable(reply(attempt - 1).answer)
        invariant |slept| == (if attempt <= cfg.maxRetries || attempt == 0 then attempt else attempt - 1)
        invariant forall i :: 0 <= i < |slept| ==> slept[i] == Delay(cfg, i)
        decreases cfg.maxRetries + 1 - attempt
      {
        var r := reply(attempt);
        assert Replies(reply, attempt + 1)[..attempt] == Replies(reply, attempt);
        invoked := attempt + 1;
        match r.answer {
          case Value(v) =>
            breaker.RecordSuccess();
            return Returned(v), invoked, slept;
          case Rejected =>
            return NotRetried, invoked, slept;
          case Unknown =>
            breaker.RecordFailure(r.at);
            return GaveUp(r.answer), invoked, slept;
          case _ =>
            last := Some(r.answer);
            breaker.RecordFailure(r.at);
        }
        if attempt < cfg.maxRetries {
          slept := slept + [Delay(cfg, attempt)];
        }
        attempt := attempt + 1;
      }
      if last.None? { return AssertionFailed, 0, slept; }
      return GaveUp(last.value), attempt, slept;
    }
  }

  // ---- backoff -----------------------------------------------------------------------------------

  lemma {:induction false} Pow2Grows(i: nat, j: nat)
    requires i <= j
    ensures 1 <= Pow2(i) <= Pow2(j)
    decreases j - i, j
  {
    if i < j { Pow2Grows(i, j - 1); }
    else if i > 0 { Pow2Grows(i - 1, j - 1); }
  }

  lemma ScaledGrows(x: real, m: int, n: int)
    requires x >= 0.0 && m <= n
    ensures Scaled(x, m) <= Scaled(x, n)
  {
    assert (n - m) as real * x >= 0.0;
  }

  lemma ScaledAdds(x: real, m: int, n: int)
    ensures Scaled(x, m + n) == Scaled(x, m) + Scaled(x, n)
  {
  }

  lemma DelaysGrow(cfg: Config, i: nat, j: nat)
    requires cfg.base >= 0.0 && i <= j
    ensures Delay(cfg, i) <= Delay(cfg, j)
  {
    Pow2Grows(i, j);
    ScaledGrows(cfg.base, Pow2(i), Pow2(j));
  }

  /** The geometric sum `base * (1 + 2 + ... )` of `n` terms, uncapped. */
  function Geometric(base: real, n: nat): real {
    if n == 0 then 0.0 else Geometric(base, n - 1) + Scaled(base, Pow2(n - 1))
  }

  function Times(x: real, n: nat): real {
    if n == 0 then 0.0 else Times(x, n - 1) + x
  }

  lemma {:induction false} TimesIs(x: real, n: nat)
    ensures Times(x, n) == Scaled(x, n)
  {
    if n > 0 {
      TimesIs(x, n - 1);
      ScaledAdds(x, n - 1, 1);
    }
  }

  lemma {:induction false} GeometricIs(base: real, n: nat)
    ensures Geometric(base, n) == Scaled(base, Pow2(n) - 1)
  {
    if n > 0 {
      GeometricIs(base, n - 1);
      ScaledAdds(base, Pow2(n - 1) - 1, Pow2(n - 1));
    }
  }

  lemma {:induction false} SleepSum(cfg: Config, slept: seq<real>)
    requires forall i :: 0 <= i < |slept| ==> slept[i] == Delay(cfg, i)
    ensures Total(slept) <= Geometric(cfg.base, |slept|) && Total(slept) <= Times(cfg.cap, |slept|)
  {
    if slept != [] {
      SleepSum(cfg, slept[..|slept| - 1]);
    }
  }

  lemma {:induction false} SumsGrow(cfg: Config, m: nat, n: nat)
    requires cfg.base >= 0.0 && cfg.cap >= 0.0 && m <= n
    ensures Geometric(cfg.base, m) <= Geometric(cfg.base, n) && Times(cfg.cap, m) <= Times(cfg.cap, n)
    decreases n - m
  {
    if m < n {
      SumsGrow(cfg, m, n - 1);
      Pow2Grows(n - 1, n - 1);
      ScaledGrows(cfg.base, 0, Pow2(n - 1));
    }
  }

  lemma SumBound(cfg: Config, total: real, m: nat, n: nat)
    requires cfg.base >= 0.0 && cfg.cap >= 0.0 && m <= n
    requires total <= Geometric(cfg.base, m) && total <= Times(cfg.cap, m)
    ensures total <= Min(Scaled(cfg.base, Pow2(n) - 1), Scaled(cfg.cap, n))
  {
    SumsGrow(cfg, m, n);
    GeometricIs(cfg.base, n);
    TimesIs(cfg.cap, n);
  }

  /** All the pauses of a call: non-decreasing, and in total at most
      `min(base * (2^maxRetries - 1), maxRetries * cap)`. */
  lemma BackoffBound(cfg: Config, slept: seq<real>)
    requires cfg.base >= 0.0 && cfg.cap >= 0.0 && |slept| <= cfg.maxRetries
    requires forall i :: 0 <= i < |slept| ==> slept[i] == Delay(cfg, i)
    ensures forall i, j :: 0 <= i <= j < |slept| ==> slept[i] <= slept[j]
    ensures Total(slept) <= Min(Scaled(cfg.base, Pow2(cfg.maxRetries) - 1), Scaled(cfg.cap, cfg.maxRetries))
  {
    forall i, j | 0 <= i <= j < |slept| ensures slept[i] <= slept[j] { DelaysGrow(cfg, i, j); }
    SleepSum(cfg, slept);
    SumBound(cfg, Total(slept), |slept|, cfg.maxRetries);
  }

  /** The first pause is the base, and each pause is twice the one before, until the
      cap is reached and kept. */
  lemma BackoffDoubles(cfg: Config, slept: seq<real>)
    requires cfg.cap >= 0.0 && forall i :: 0 <= i < |slept| ==> slept[i] == Delay(cfg, i)
    ensures slept != [] ==> slept[0] == if cfg.base <= cfg.cap then cfg.base else cfg.cap
    ensures forall i :: 0 < i < |slept| ==>
              slept[i] == if 2.0 * slept[i - 1] <= cfg.cap then 2.0 * slept[i - 1] else cfg.cap
  {
    forall i | 0 < i < |slept| ensures slept[i] == if 2.0 * slept[i - 1] <= cfg.cap then 2.0 * slept[i - 1] else cfg.cap {
      ScaledAdds(cfg.base, Pow2(i - 1), Pow2(i - 1));
    }
  }

  // ---- load shedding ---------------------------------------------------------------------------------

  /** A call: the clock when it starts, and what the operation would answer. */
  datatype Call = Call(now: real, reply: nat -> Reply)

  /** Breaker, invocations so far, and when the breaker first opened. */
  datatype Load = Load(b: Breaker, invoked: nat, tripped: Option<real>)

  /** Reply `n` of a failing run: the breaker may open with it. */
  function Hit(cfg: Config, l: Load, r: Reply): Load {
    var b := Recorded(cfg, l.b, r);
    Load(b, l.invoked + 1, if l.tripped.None? && b.openedAt.Some? then b.openedAt else l.tripped)
  }

  function Hits(cfg: Config, l: Load, c: Call, n: nat): Load
    decreases n
  {
    if n == 0 then l else Hit(cfg, Hits(cfg, l, c, n - 1), c.reply(n - 1))
  }

  function Called(cfg: Config, l: Load, c: Call): Load {
    if !Allows(cfg, l.b, c.now) then l else Hits(cfg, l, c, Attempts(cfg.maxRetries, c.reply, 0))
  }

  function AllCalled(cfg: Config, calls: seq<Call>): Load {
    if calls == [] then Load(CLOSED, 0, None)
    else Called(cfg, AllCalled(cfg, calls[..|calls| - 1]), calls[|calls| - 1])
  }

  /** The breaker is the one `Connector.Run` leaves. */
  lemma {:induction false} HitsRecord(cfg: Config, l: Load, c: Call, n: nat)
    ensures Hits(cfg, l, c, n).b == RecordedAll(cfg, l.b, Replies(c.reply, n))
    ensures Hits(cfg, l, c, n).invoked == l.invoked + n
    decreases n
  {
    if n > 0 {
      HitsRecord(cfg, l, c, n - 1);
      assert Replies(c.reply, n)[..n - 1] == Replies(c.reply, n - 1);
    }
  }

  ghost predicate Failing(c: Call) {
    forall i: nat :: Failure(c.reply(i).answer)
  }

  /** The clock does not run backwards within a call. */
  ghost predicate Timely(c: Call) {
    (forall i: nat :: c.now <= c.reply(i).at) && forall i: nat, j: nat :: i <= j ==> c.reply(i).at <= c.reply(j).at
  }

  /** Call `d` starts after the replies of call `c`. */
  ghost predicate Follows(cfg: Config, c: Call, d: Call) {
    c.now <= d.now && forall i: nat :: i <= cfg.maxRetries ==> c.reply(i).at <= d.now
  }

  /** While every reply is a failure: it is counted, and from the threshold on
      each one stamps the breaker anew. */
  ghost predicate Counting(cfg: Config, l: Load) {
    && l.b.failures == l.invoked
    && (l.b.openedAt.Some? <==> l.invoked >= cfg.threshold)
    && (l.tripped.Some? <==> l.b.openedAt.Some?)
    && (l.tripped.Some? ==> l.tripped.value <= l.b.openedAt.value)
  }

  lemma {:induction false} HitsCount(cfg: Config, l: Load, n: nat, c: Call)
    requires cfg.threshold >= 1 && Failing(c) && Timely(c) && n > 0
    requires Counting(cfg, l) && (l.b.openedAt.Some? ==> l.b.openedAt.value <= c.now)
    ensures var l' := Hits(cfg, l, c, n);
            && Counting(cfg, l') && l'.invoked == l.invoked + n
            && (l'.b.openedAt.Some? ==> c.now <= l'.b.openedAt.value == c.reply(n - 1).at)
            && (l.tripped.Some? ==> l'.tripped == l.tripped)
    decreases n
  {
    assert Failure(c.reply(n - 1).answer) && c.now <= c.reply(n - 1).at;
    if n > 1 {
      HitsCount(cfg, l, n - 1, c);
      assert c.reply(n - 2).at <= c.reply(n - 1).at;
    }
  }

  /** Invocations by the call that trips and `k` calls let through after it. */
  function Quota(cfg: Config, k: nat): int {
    if k == 0 then cfg.threshold + cfg.maxRetries else Quota(cfg, k - 1) + cfg.maxRetries + 1
  }

  lemma {:induction false} QuotaIs(cfg: Config, k: nat)
    ensures Quota(cfg, k) == cfg.threshold + cfg.maxRetries + (cfg.maxRetries + 1) * k
  {
    if k > 0 {
      QuotaIs(cfg, k - 1);
      assert (cfg.maxRetries + 1) * k == (cfg.maxRetries + 1) * (k - 1) + (cfg.maxRetries + 1);
    }
  }

  lemma {:induction false} QuotaGrows(cfg: Config, j: nat, k: nat)
    requires j <= k && cfg.maxRetries >= 0
    ensures Quota(cfg, j) <= Quota(cfg, k)
    decreases k - j
  {
    if j < k { QuotaGrows(cfg, j, k - 1); }
  }

  /** `k` calls got through since the breaker opened, at least `reset` apart,
      the last of them not after `now`. */
  ghost predicate Shed(cfg: Config, l: Load, k: nat, now: real) {
    l.b.openedAt.Some? && l.tripped.Some? ==>
      && l.tripped.value + Times(cfg.reset, k) <= l.b.openedAt.value
      && l.invoked <= Quota(cfg, k)
      && (k > 0 ==> l.tripped.value + Times(cfg.reset, k) <= now)
  }

  /** Failing calls, one after the other, under a monotone clock. */
  ghost predicate Timetable(cfg: Config, calls: seq<Call>) {
    && (forall j :: 0 <= j < |calls| ==> Failing(calls[j]) && Timely(calls[j]))
    && (forall j, k :: 0 <= j < k < |calls| ==> Follows(cfg, calls[j], calls[k]))
  }

  /** The last stamp comes from a reply of this call, or from before it. */
  ghost predicate Behind(cfg: Config, l: Load, c: Call) {
    l.b.openedAt.Some? ==>
      l.b.openedAt.value <= c.now || exists i: nat :: i <= cfg.maxRetries && l.b.openedAt.value == c.reply(i).at
  }

  lemma CallShed(cfg: Config, l: Load, c: Call, k: nat, before: real) returns (k': nat)
    requires cfg.threshold >= 1 && cfg.maxRetries >= 0 && cfg.reset > 0.0 && Failing(c) && Timely(c)
    requires Counting(cfg, l) && Shed(cfg, l, k, before) && before <= c.now
    requires l.b.openedAt.Some? ==> l.b.openedAt.value <= c.now
    ensures var l' := Called(cfg, l, c); Counting(cfg, l') && Shed(cfg, l', k', c.now) && Behind(cfg, l', c)
  {
    k' := k;
    if Allows(cfg, l.b, c.now) {
      var m := Attempts(cfg.maxRetries, c.reply, 0);
      AttemptsExact(cfg.maxRetries, c.reply, 0);
      HitsCount(cfg, l, m, c);
      k' := if l.b.openedAt.Some? then k + 1 else 0;
    }
  }

  lemma {:induction false} CallsShed(cfg: Config, calls: seq<Call>) returns (k: nat)
    requires cfg.threshold >= 1 && cfg.maxRetries >= 0 && cfg.reset > 0.0 && Timetable(cfg, calls)
    ensures var l := AllCalled(cfg, calls);
            && Counting(cfg, l)
            && (calls == [] ==> l.b.openedAt.None?)
            && (calls != [] ==> var c := calls[|calls| - 1]; Shed(cfg, l, k, c.now) && Behind(cfg, l, c))
    decreases |calls|
  {
    k := 0;
    if calls != [] {
      var n := |calls| - 1;
      var c, l := calls[n], AllCalled(cfg, calls[..n]);
      k := CallsShed(cfg, calls[..n]);
      assert calls[..n] == [] || (calls[..n][n - 1] == calls[n - 1] && Follows(cfg, calls[n - 1], c));
      k := CallShed(cfg, l, c, k, if n > 0 then calls[n - 1].now else c.now);
    }
  }

  lemma NotPositive(x: real, c: real)
    requires c > 0.0 && x * c <= 0.0
    ensures x <= 0.0
  {
  }

  lemma WholePeriods(k: nat, reset: real, t: real)
    requires reset > 0.0 && k as real * reset <= t
    ensures k <= (t / reset).Floor
  {
    var q := t / reset;
    assert q * reset == t;
    assert (k as real - q) * reset == k as real * reset - q * reset;
    NotPositive(k as real - q, reset);
  }

  lemma ShedBound(cfg: Config, l: Load, k: nat, now: real, t: real)
    requires cfg.maxRetries >= 0 && cfg.reset > 0.0 && t >= 0.0
    requires Counting(cfg, l) && Shed(cfg, l, k, now) && l.tripped.Some? && now <= l.tripped.value + t
    ensures l.invoked <= cfg.threshold + cfg.maxRetries + (cfg.maxRetries + 1) * (t / cfg.reset).Floor
  {
    TimesIs(cfg.reset, k);
    WholePeriods(k, cfg.reset, t);
    QuotaGrows(cfg, k, (t / cfg.reset).Floor);
    QuotaIs(cfg, (t / cfg.reset).Floor);
  }

  /** Sequential calls that all fail, none starting later than `t` after the
      breaker first opened, invoke the operation at most
      `threshold + maxRetries + (maxRetries + 1) * floor(t / reset)` times. */
  lemma LoadShedding(cfg: Config, calls: seq<Call>, t: real)
    requires cfg.threshold >= 1 && cfg.maxRetries >= 0 && cfg.reset > 0.0 && t >= 0.0 && Timetable(cfg, calls)
    ensures var l := AllCalled(cfg, calls);
            && (l.tripped.None? ==> l.invoked < cfg.threshold)
            && (l.tripped.Some? ==> calls != [])
            && (l.tripped.Some? && calls[|calls| - 1].now <= l.tripped.value + t ==>
                  l.invoked <= cfg.threshold + cfg.maxRetries + (cfg.maxRetries + 1) * (t / cfg.reset).Floor)
  {
    var k := CallsShed(cfg, calls);
    var l := AllCalled(cfg, calls);
    if l.tripped.Some? && calls[|calls| - 1].now <= l.tripped.value + t {
      ShedBound(cfg, l, k, calls[|calls| - 1].now, t);
    }
  }

  // ---- half open ----------------------------------------------------------------------------------------

  /** A call that a tripped breaker lets through invokes the operation exactly once
      if and only if there are no retries or its first answer is not transient;
      and until an outcome is recorded, every later call is let through as well. */
  lemma OneTrialIff(cfg: Config, b: Breaker, c: Call)
    requires b.openedAt.Some? && Allows(cfg, b, c.now)
    ensures Attempts(cfg.maxRetries, c.reply, 0) == 1 <==>
            cfg.maxRetries == 0 || (cfg.maxRetries > 0 && !Retryable(c.reply(0).answer))
    ensures forall now :: now >= c.now ==> Allows(cfg, b, now)
  {
    if cfg.maxRetries > 0 && Retryable(c.reply(0).answer) {
      AttemptsExact(cfg.maxRetries, c.reply, 1);
    }
  }

  /** Among calls one after the other, a failing trial is the only one for a while:
      after it, a call is let through exactly when the cooldown has passed since
      its last failure. */
  lemma TrialReopens(cfg: Config, l: Load, c: Call, now: real)
    requires cfg.threshold >= 1 && cfg.maxRetries >= 0 && Failing(c) && Timely(c) && Counting(cfg, l)
    requires l.b.openedAt.Some? && l.b.openedAt.value <= c.now && Allows(cfg, l.b, c.now)
    ensures var n := Attempts(cfg.maxRetries, c.reply, 0);
            n > 0 && (Allows(cfg, Called(cfg, l, c).b, now) <==> now - c.reply(n - 1).at >= cfg.reset)
  {
    AttemptsExact(cfg.maxRetries, c.reply, 0);
    HitsCount(cfg, l, Attempts(cfg.maxRetries, c.reply, 0), c);
  }
}
