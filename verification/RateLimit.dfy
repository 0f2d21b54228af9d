/** Fixed-window rate limiting: the in-memory limiter that forgets old windows,
    and the shared counter that may expire. */
module RateLimit {
  import C = Core
  import opened Text

  type Slot = (string, int)

  function Bucket(now: real, window: real): int
    requires window != 0.0
  {
    (now / window).Floor
  }

  const MAX_ENTRIES: nat := 4096

  // ---- the in-memory limiter ---------------------------------------------------------------

  function Tally(m: map<Slot, nat>, s: Slot): nat {
    if s in m then m[s] else 0
  }

  function Bump(m: map<Slot, nat>, s: Slot): map<Slot, nat> {
    m[s := Tally(m, s) + 1]
  }

  /** Count the call; past the size limit, drop the older windows. */
  function Counted(m: map<Slot, nat>, s: Slot): map<Slot, nat> {
    var m1 := Bump(m, s);
    if |m1| > MAX_ENTRIES then map k | k in m1 && k.1 >= s.1 :: m1[k] else m1
  }

  class InMemoryRateLimiter {
    const limit: int
    const window: real
    var counts: map<Slot, nat>

    constructor (limit: int, window: real)
      ensures this.limit == limit && this.window == window && counts == map[]
    {
      this.limit, this.window, counts := limit, window, map[];
    }

    /** After each call at most 4096 entries remain, or none is from an older
        window. */
    method Allow(key: string, now: real) returns (ok: bool)
      requires window != 0.0
      modifies this
      ensures var s := (key, Bucket(now, window));
              && counts == Counted(old(counts), s)
              && ok == (Tally(old(counts), s) + 1 <= limit)
              && (|counts| <= 4096 || forall k :: k in counts ==> k.1 >= s.1)
      ensures var s := (key, Bucket(now, window));
              var counted := old(counts)[s := (if s in old(counts) then old(counts)[s] else 0) + 1];
              && (|counted| <= 4096 ==> counts == counted)
              && (|counted| > 4096 ==>
                    && (forall k :: k in counts <==> k in counted && k.1 >= s.1)
                    && (forall k :: k in counts ==> counts[k] == counted[k]))
    {
      var bucket := (now / window).Floor;
      counts := counts[(key, bucket) := (if (key, bucket) in counts then counts[(key, bucket)] else 0) + 1];
      var count := counts[(key, bucket)];
      if |counts| > MAX_ENTRIES {
        counts := map k | k in counts && k.1 >= bucket :: counts[k];
      }
      ok := count <= limit;
    }
  }

  // ---- against a counter that never forgets ----------------------------------------------------

  function After(calls: seq<Slot>): map<Slot, nat> {
    if calls == [] then map[] else Counted(After(calls[..|calls| - 1]), calls[|calls| - 1])
  }

  /** The limiter's answer to call `i`. */
  predicate Admits(calls: seq<Slot>, limit: int, i: nat)
    requires i < |calls|
  {
    Tally(After(calls[..i]), calls[i]) + 1 <= limit
  }

  /** How often the window of this key was used, ever. */
  function Uses(calls: seq<Slot>, s: Slot): nat {
    if calls == [] then 0 else Uses(calls[..|calls| - 1], s) + if calls[|calls| - 1] == s then 1 else 0
  }

  ghost predicate Ordered(calls: seq<Slot>) {
    forall i, j :: 0 <= i <= j < |calls| ==> calls[i].1 <= calls[j].1
  }

  /** What is dropped is never asked about again. */
  lemma {:induction false} Remembers(calls: seq<Slot>, s: Slot)
    requires Ordered(calls) && (calls != [] ==> calls[|calls| - 1].1 <= s.1)
    ensures Tally(After(calls), s) == Uses(calls, s)
  {
    if calls != [] {
      var n := |calls| - 1;
      assert Ordered(calls[..n]);
      if n > 0 { assert calls[n - 1].1 <= calls[n].1; }
      Remembers(calls[..n], s);
      Remembers(calls[..n], calls[n]);
    }
  }

  /** As long as the windows never go back, the evicting limiter answers every
      call as a counter that forgets nothing. */
  lemma Refines(calls: seq<Slot>, limit: int, i: nat)
    requires Ordered(calls) && i < |calls|
    ensures Admits(calls, limit, i) <==> Uses(calls[..i + 1], calls[i]) <= limit
  {
    assert Ordered(calls[..i]);
    if i > 0 { assert calls[..i][i - 1] == calls[i - 1] && calls[i - 1].1 <= calls[i].1; }
    Remembers(calls[..i], calls[i]);
    assert calls[..i + 1][..i] == calls[..i];
  }

  /** Number of admitted calls of the window. */
  function Admitted(calls: seq<Slot>, limit: int, s: Slot): nat {
    if calls == [] then 0
    else
      var n := |calls| - 1;
      Admitted(calls[..n], limit, s) + if calls[n] == s && Admits(calls, limit, n) then 1 else 0
  }

  function Capped(n: nat, limit: int): nat {
    if limit < 0 then 0 else if n <= limit then n else limit
  }

  /** Exactly `min(calls, limit)` calls of every key and window are admitted. */
  lemma {:induction false} AdmitsExactly(calls: seq<Slot>, limit: int, s: Slot)
    requires Ordered(calls)
    ensures Admitted(calls, limit, s) == Capped(Uses(calls, s), limit)
  {
    if calls != [] {
      var n := |calls| - 1;
      assert Ordered(calls[..n]);
      AdmitsExactly(calls[..n], limit, s);
      Refines(calls, limit, n);
      assert calls[..n + 1] == calls;
    }
  }

  // ---- any interval ----------------------------------------------------------------------------------

  datatype Timed = Timed(key: string, now: real)

  function Slots(calls: seq<Timed>, window: real): seq<Slot>
    requires window != 0.0
  {
    seq(|calls|, i requires 0 <= i < |calls| => (calls[i].key, Bucket(calls[i].now, window)))
  }

  /** Admitted calls of a key with a clock reading in `[lo, hi]`. */
  function AdmittedIn(calls: seq<Timed>, limit: int, window: real, key: string, lo: real, hi: real): nat
    requires window != 0.0
  {
    if calls == [] then 0
    else
      var n := |calls| - 1;
      AdmittedIn(calls[..n], limit, window, key, lo, hi) +
      if calls[n].key == key && lo <= calls[n].now <= hi && Admits(Slots(calls, window), limit, n) then 1 else 0
  }

  lemma NotNegative(x: real, w: real)
    requires w > 0.0 && x * w >= 0.0
    ensures x >= 0.0
  {
  }

  lemma DivGrows(x: real, y: real, w: real)
    requires w > 0.0 && x <= y
    ensures x / w <= y / w
  {
    var p, q := x / w, y / w;
    assert p * w == x && q * w == y;
    assert (q - p) * w == q * w - p * w;
    NotNegative(q - p, w);
  }

  lemma BucketGrows(x: real, y: real, w: real)
    requires w > 0.0 && x <= y
    ensures Bucket(x, w) <= Bucket(y, w)
  {
    DivGrows(x, y, w);
  }

  lemma TwoBuckets(lo: real, x: real, w: real)
    requires w > 0.0 && lo <= x <= lo + w
    ensures Bucket(lo, w) <= Bucket(x, w) <= Bucket(lo, w) + 1
  {
    DivGrows(lo, x, w);
    DivGrows(x, lo + w, w);
    var p, q := (lo + w) / w, lo / w;
    assert p * w == lo + w && q * w == lo;
    assert (q + 1.0 - p) * w == q * w + w - p * w;
    NotNegative(q + 1.0 - p, w);
  }

  lemma {:induction false} IntervalSplits(calls: seq<Timed>, limit: int, w: real, key: string, lo: real, hi: real)
    requires w > 0.0 && hi <= lo + w
    ensures var b := Bucket(lo, w);
            AdmittedIn(calls, limit, w, key, lo, hi) <=
            Admitted(Slots(calls, w), limit, (key, b)) + Admitted(Slots(calls, w), limit, (key, b + 1))
  {
    if calls != [] {
      var n := |calls| - 1;
      IntervalSplits(calls[..n], limit, w, key, lo, hi);
      assert Slots(calls, w)[..n] == Slots(calls[..n], w);
      if lo <= calls[n].now <= hi { TwoBuckets(lo, calls[n].now, w); }
    }
  }

  /** Under a clock that does not go back, no interval of the window's length
      sees more than twice the limit admitted for a key. */
  lemma TwiceTheLimit(calls: seq<Timed>, limit: nat, w: real, key: string, lo: real, hi: real)
    requires w > 0.0 && hi <= lo + w
    requires forall i, j :: 0 <= i <= j < |calls| ==> calls[i].now <= calls[j].now
    ensures AdmittedIn(calls, limit, w, key, lo, hi) <= 2 * limit
  {
    var slots, b := Slots(calls, w), Bucket(lo, w);
    forall i, j | 0 <= i <= j < |slots| ensures slots[i].1 <= slots[j].1 {
      BucketGrows(calls[i].now, calls[j].now, w);
    }
    IntervalSplits(calls, limit, w, key, lo, hi);
    AdmitsExactly(slots, limit, (key, b));
    AdmitsExactly(slots, limit, (key, b + 1));
  }

  // ---- the shared counter ------------------------------------------------------------------------------

  function RedisKey(key: string, bucket: int): string {
    "rl:" + key + ":" + Signed(bucket)
  }

  /** Different windows have different keys, whatever characters a key holds. */
  lemma RedisKeyInjective(k: string, b: int, k': string, b': int)
    requires RedisKey(k, b) == RedisKey(k', b')
    ensures k == k' && b == b'
  {
    SignedLacks(b, ':');
    SignedLacks(b', ':');
    assert RedisKey(k, b) == ("rl:" + k) + [':'] + Signed(b);
    assert RedisKey(k', b') == ("rl:" + k') + [':'] + Signed(b');
    LastPart("rl:" + k, Signed(b), "rl:" + k', Signed(b'), ':');
    SignedInjective(b, b');
    assert ("rl:" + k)[3..] == k && ("rl:" + k')[3..] == k';
  }

  datatype Counter = Counter(count: nat, expiresAt: C.Option<real>)

  /** The server's counters, and the EXPIRE commands instances still owe. */
  datatype Server = Server(counters: map<string, Counter>, owed: set<string>)

  /** Some instance reads the clock and increments; or an owed EXPIRE gets
      through. One that is lost just never happens. */
  datatype Command = Hit(key: string, now: real) | Expire(key: string, bucket: int, now: real)

  predicate Alive(sv: Server, k: string, now: real) {
    k in sv.counters && (sv.counters[k].expiresAt.Some? ==> now < sv.counters[k].expiresAt.value)
  }

  function Incr(sv: Server, k: string, now: real): Server {
    if Alive(sv, k, now) then
      sv.(counters := sv.counters[k := sv.counters[k].(count := sv.counters[k].count + 1)])
    else Server(sv.counters[k := Counter(1, C.None)], sv.owed + {k})
  }

  function Served(sv: Server, c: Command, w: real): Server
    requires w != 0.0
  {
    match c
    case Hit(key, now) => Incr(sv, RedisKey(key, Bucket(now, w)), now)
    case Expire(key, bucket, now) =>
      var k := RedisKey(key, bucket);
      if k !in sv.owed then sv
      else if !Alive(sv, k, now) then sv.(owed := sv.owed - {k})
      else Server(sv.counters[k := sv.counters[k].(expiresAt := C.Some(now + w))], sv.owed - {k})
  }

  function Serve(cs: seq<Command>, w: real): Server
    requires w != 0.0
  {
    if cs == [] then Server(map[], {}) else Served(Serve(cs[..|cs| - 1], w), cs[|cs| - 1], w)
  }

  predicate IsHit(c: Command, w: real, key: string, b: int)
    requires w != 0.0
  {
    c.Hit? && c.key == key && Bucket(c.now, w) == b
  }

  /** The instance that made command `i` admits its caller. */
  predicate Grants(cs: seq<Command>, w: real, limit: int, i: nat)
    requires w != 0.0 && i < |cs| && cs[i].Hit?
  {
    var k := RedisKey(cs[i].key, Bucket(cs[i].now, w));
    var sv := Serve(cs[..i + 1], w);
    k in sv.counters && sv.counters[k].count <= limit
  }

  function HitsOf(cs: seq<Command>, w: real, key: string, b: int): nat
    requires w != 0.0
  {
    if cs == [] then 0
    else HitsOf(cs[..|cs| - 1], w, key, b) + if IsHit(cs[|cs| - 1], w, key, b) then 1 else 0
  }

  function Granted(cs: seq<Command>, w: real, limit: int, key: string, b: int): nat
    requires w != 0.0
  {
    if cs == [] then 0
    else
      var n := |cs| - 1;
      Granted(cs[..n], w, limit, key, b) + if IsHit(cs[n], w, key, b) && Grants(cs, w, limit, n) then 1 else 0
  }

  ghost predicate Clocked(cs: seq<Command>) {
    forall i, j :: 0 <= i <= j < |cs| ==> cs[i].now <= cs[j].now
  }

  function Times(x: real, w: real): real { x * w }

  /** When window `b` starts. */
  function Start(b: int, w: real): real { Times(b as real, w) }

  lemma TimesGrows(x: real, y: real, w: real)
    requires w > 0.0 && x < y
    ensures Times(x, w) < Times(y, w)
  {
    assert (y - x) * w > 0.0;
    assert (y - x) * w == y * w - x * w;
  }

  lemma TimesOneMore(x: real, w: real)
    ensures Times(x + 1.0, w) == Times(x, w) + w
  {
  }

  lemma TimesQuotient(x: real, w: real)
    requires w != 0.0
    ensures Times(x / w, w) == x
  {
  }

  lemma BucketSpan(now: real, w: real)
    requires w > 0.0
    ensures Start(Bucket(now, w), w) <= now < Start(Bucket(now, w), w) + w
  {
    var b := Bucket(now, w) as real;
    TimesQuotient(now, w);
    if b < now / w { TimesGrows(b, now / w, w); }
    TimesGrows(now / w, b + 1.0, w);
    TimesOneMore(b, w);
  }

  /** A counter of the window from `start`, whose commands all came by `now`. */
  ghost predicate CounterOk(sv: Server, k: string, start: real, w: real, now: real, hits: nat) {
    && (k in sv.owed || k in sv.counters ==> start <= now)
    && (k in sv.counters && sv.counters[k].expiresAt.Some? ==> start + w <= sv.counters[k].expiresAt.value)
    && (now < start + w ==> (if k in sv.counters then sv.counters[k].count else 0) == hits)
  }

  lemma ServedOk(sv: Server, c: Command, w: real, key: string, b: int, before: real, hits: nat)
    requires w > 0.0 && before <= c.now && CounterOk(sv, RedisKey(key, b), Start(b, w), w, before, hits)
    ensures CounterOk(Served(sv, c, w), RedisKey(key, b), Start(b, w), w, c.now,
                      hits + if IsHit(c, w, key, b) then 1 else 0)
  {
    BucketSpan(c.now, w);
    var b' := if c.Hit? then Bucket(c.now, w) else c.bucket;
    if RedisKey(c.key, b') == RedisKey(key, b) { RedisKeyInjective(c.key, b', key, b); }
  }

  /** Inside its own window a counter has counted every hit and has not expired. */
  lemma {:induction false} NeverExpiresInside(cs: seq<Command>, w: real, key: string, b: int)
    requires w > 0.0 && Clocked(cs) && cs != []
    ensures CounterOk(Serve(cs, w), RedisKey(key, b), Start(b, w), w, cs[|cs| - 1].now, HitsOf(cs, w, key, b))
  {
    var n := |cs| - 1;
    if n > 0 {
      NeverExpiresInside(cs[..n], w, key, b);
      assert cs[n - 1].now <= cs[n].now;
      ServedOk(Serve(cs[..n], w), cs[n], w, key, b, cs[n - 1].now, HitsOf(cs[..n], w, key, b));
    } else {
      ServedOk(Serve([], w), cs[0], w, key, b, cs[0].now, 0);
    }
  }

  /** All the instances together admit exactly `min(calls, limit)` calls of every
      key and window: a counter cannot expire inside its own window. */
  lemma {:induction false} SharedWindow(cs: seq<Command>, w: real, limit: int, key: string, b: int)
    requires w > 0.0 && Clocked(cs)
    ensures Granted(cs, w, limit, key, b) == Capped(HitsOf(cs, w, key, b), limit)
  {
    if cs != [] {
      var n := |cs| - 1;
      SharedWindow(cs[..n], w, limit, key, b);
      if IsHit(cs[n], w, key, b) {
        NeverExpiresInside(cs, w, key, b);
        BucketSpan(cs[n].now, w);
        assert cs[..n + 1] == cs;
      }
    }
  }

  /** An EXPIRE that gets through leaves the counter alive for one window from then. */
  lemma ExpiresAfterWindow(sv: Server, key: string, b: int, now: real, w: real, later: real)
    requires w > 0.0 && later >= now
    requires var k := RedisKey(key, b); k in sv.owed && Alive(sv, k, now)
    ensures var sv' := Served(sv, Expire(key, b, now), w);
            && (Alive(sv', RedisKey(key, b), later) <==> later < now + w)
            && sv'.counters[RedisKey(key, b)].count == sv.counters[RedisKey(key, b)].count
  {
  }

  // ---- the client ------------------------------------------------------------------------------------------

  class Redis {
    var sv: Server

    constructor ()
      ensures sv == Server(map[], {})
    {
      sv := Server(map[], {});
    }
  }

  class RedisRateLimiter {
    const redis: Redis
    const limit: int
    const window: real

    constructor (redis: Redis, limit: int, window: real)
      ensures this.redis == redis && this.limit == limit && this.window == window
    {
      this.redis, this.limit, this.window := redis, limit, window;
    }

    /** One hit, then, for the first hit of a window, an EXPIRE at time `later`
        if it gets through at all. */
    method Allow(key: string, now: real, later: C.Option<real>) returns (ok: bool)
      requires window != 0.0
      modifies redis
      ensures var b := Bucket(now, window);
              var s1 := Served(old(redis.sv), Hit(key, now), window);
              var count := s1.counters[RedisKey(key, b)].count;
              && ok == (count <= limit)
              && redis.sv == if count == 1 && later.Some? then Served(s1, Expire(key, b, later.value), window) else s1
    {
      var bucket := (now / window).Floor;
      var k := "rl:" + key + ":" + Signed(bucket);
      redis.sv := Incr(redis.sv, k, now);
      var count := redis.sv.counters[k].count;
      if count == 1 && later.Some? {
        redis.sv := Served(redis.sv, Expire(key, bucket, later.value), window);
      }
      ok := count <= limit;
    }
  }
}
