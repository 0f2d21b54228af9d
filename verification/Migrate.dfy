/** The migration runner on its transactional path: each migration's DDL and its
    ledger row commit together. */
module Migrate {
  import opened Core

  datatype Migration = Migration(id: Id, sql: string)

  /** What DDL does to a schema; nothing when the statement raises. */
  type Ddl<!S> = (S, string) -> Option<S>

  datatype Db<S> = Db(schema: S, ledger: seq<Id>)

  datatype Outcome = Finished(newly: seq<Id>) | Raised(at: Id) | Killed

  // ---- what a run does ---------------------------------------------------------------------

  /** One transaction; nothing when the DDL or the ledger insert raises. */
  function Applied<S>(ddl: Ddl<S>, db: Db<S>, m: Migration): Option<Db<S>> {
    var s := ddl(db.schema, m.sql);
    if s.None? || m.id in db.ledger then None else Some(Db(s.value, db.ledger + [m.id]))
  }

  /** The rest of a run: `done` is the ledger as read at its start, and the
      process dies before commit number `kill`. */
  function Rest<S>(ddl: Ddl<S>, db: Db<S>, ms: seq<Migration>, done: set<Id>, newly: seq<Id>, kill: nat): (Db<S>, Outcome)
    decreases ms
  {
    if ms == [] then (db, Finished(newly))
    else if ms[0].id in done then Rest(ddl, db, ms[1..], done, newly, kill)
    else if kill == 0 then (db, Killed)
    else
      var next := Applied(ddl, db, ms[0]);
      if next.None? then (db, Raised(ms[0].id))
      else Rest(ddl, next.value, ms[1..], done, newly + [ms[0].id], kill - 1)
  }

  function LedgerIds<S>(db: Db<S>): set<Id> {
    set x | x in db.ledger
  }

  function RunOnce<S>(ddl: Ddl<S>, db: Db<S>, ms: seq<Migration>, kill: nat): (Db<S>, Outcome) {
    Rest(ddl, db, ms, LedgerIds(db), [], kill)
  }

  class Database<S> {
    var db: Db<S>

    constructor (schema: S)
      ensures db == Db(schema, [])
    {
      db := Db(schema, []);
    }
  }

  class Migrator<!S> {
    const ddl: Ddl<S>
    const migrations: seq<Migration>

    constructor (ddl: Ddl<S>, migrations: seq<Migration>)
      ensures this.ddl == ddl && this.migrations == migrations
    {
      this.ddl, this.migrations := ddl, migrations;
    }

    method AppliedIds(conn: Database<S>) returns (ids: set<Id>)
      ensures ids == LedgerIds(conn.db)
    {
      ids := set x | x in conn.db.ledger;
    }

    /** Apply the pending migrations in order. A statement that raises is rolled
        back; a process that dies loses its open transaction. */
    method Run(conn: Database<S>, kill: nat) returns (r: Outcome)
      modifies conn
      ensures (conn.db, r) == RunOnce(ddl, old(conn.db), migrations, kill)
    {
      var done := AppliedIds(conn);
      var newly: seq<Id> := [];
      var i, left := 0, kill;
      while i < |migrations|
        invariant 0 <= i <= |migrations|
        invariant RunOnce(ddl, old(conn.db), migrations, kill) == Rest(ddl, conn.db, migrations[i..], done, newly, left)
      {
        var m := migrations[i];
        assert migrations[i..][0] == m && migrations[i..][1..] == migrations[i + 1..];
        if m.id !in done {
          if left == 0 { return Killed; }
          var saved := conn.db;
          var s := ddl(conn.db.schema, m.sql);
          if s.None? { return Raised(m.id); }
          conn.db := conn.db.(schema := s.value);
          if m.id in conn.db.ledger {
            conn.db := saved;
            return Raised(m.id);
          }
          conn.db := conn.db.(ledger := conn.db.ledger + [m.id]);
          newly, left := newly + [m.id], left - 1;
        }
        i := i + 1;
      }
      r := Finished(newly);
    }
  }

  // ---- every history of runs -----------------------------------------------------------------

  ghost function Ids(ms: seq<Migration>): seq<Id> {
    seq(|ms|, i requires 0 <= i < |ms| => ms[i].id)
  }

  ghost predicate Unique(ms: seq<Migration>) {
    forall i, j :: 0 <= i < j < |ms| ==> ms[i].id != ms[j].id
  }

  /** The schema after the migrations, in order and each once. */
  function Fold<S>(ddl: Ddl<S>, s: S, ms: seq<Migration>): Option<S> {
    if ms == [] then Some(s)
    else
      var before := Fold(ddl, s, ms[..|ms| - 1]);
      if before.None? then None else ddl(before.value, ms[|ms| - 1].sql)
  }

  /** The first `n` migrations have been applied, and nothing else. */
  ghost predicate At<S>(ddl: Ddl<S>, s0: S, ms: seq<Migration>, db: Db<S>, n: nat) {
    n <= |ms| && db.ledger == Ids(ms[..n]) && Fold(ddl, s0, ms[..n]) == Some(db.schema)
  }

  lemma DoneExactly(ms: seq<Migration>, n: nat, i: nat)
    requires Unique(ms) && n <= |ms| && i < |ms|
    ensures ms[i].id in Ids(ms[..n]) <==> i < n
  {
    if i < n { assert Ids(ms[..n])[i] == ms[i].id; }
  }

  lemma AppliedAt<S>(ddl: Ddl<S>, s0: S, ms: seq<Migration>, db: Db<S>, n: nat)
    requires Unique(ms) && At(ddl, s0, ms, db, n) && n < |ms|
    ensures var next := Applied(ddl, db, ms[n]);
            && (next.Some? <==> ddl(db.schema, ms[n].sql).Some?)
            && (next.Some? ==> At(ddl, s0, ms, next.value, n + 1))
  {
    DoneExactly(ms, n, n);
    assert ms[..n + 1][..n] == ms[..n];
    assert Ids(ms[..n + 1]) == Ids(ms[..n]) + [ms[n].id];
  }

  /** What a run that found `n0` migrations applied comes to. */
  ghost predicate Ends<S>(ddl: Ddl<S>, s0: S, ms: seq<Migration>, db: Db<S>, r: Outcome, n0: nat, n: nat) {
    && n0 <= n && At(ddl, s0, ms, db, n)
    && (r.Finished? ==> n == |ms| && r.newly == Ids(ms[n0..]))
    && (r.Raised? ==> n < |ms| && r.at == ms[n].id && ddl(db.schema, ms[n].sql).None?)
  }

  /** The migrations already in the ledger are skipped. */
  lemma {:induction false} Skips<S>(ddl: Ddl<S>, ms: seq<Migration>, db: Db<S>, i: nat, n0: nat, done: set<Id>, kill: nat)
    requires Unique(ms) && i <= n0 <= |ms| && done == set x | x in Ids(ms[..n0])
    ensures Rest(ddl, db, ms[i..], done, [], kill) == Rest(ddl, db, ms[n0..], done, [], kill)
    decreases n0 - i
  {
    if i < n0 {
      DoneExactly(ms, n0, i);
      assert ms[i..][1..] == ms[i + 1..];
      Skips(ddl, ms, db, i + 1, n0, done, kill);
    }
  }

  /** From position `n` on, everything is pending. */
  lemma {:induction false} RestAt<S>(
    ddl: Ddl<S>, s0: S, ms: seq<Migration>, db: Db<S>, n0: nat, n: nat, done: set<Id>, newly: seq<Id>, kill: nat)
    returns (n': nat)
    requires Unique(ms) && At(ddl, s0, ms, db, n) && n0 <= n
    requires done == set x | x in Ids(ms[..n0])
    requires newly == Ids(ms[n0..n])
    ensures var (db', r) := Rest(ddl, db, ms[n..], done, newly, kill);
            Ends(ddl, s0, ms, db', r, n0, n') && n <= n' && (r.Killed? ==> n' == n + kill)
    decreases |ms| - n
  {
    n' := n;
    if n == |ms| {
      assert ms[n0..n] == ms[n0..];
    } else {
      DoneExactly(ms, n0, n);
      assert ms[n..][1..] == ms[n + 1..];
      AppliedAt(ddl, s0, ms, db, n);
      var next := Applied(ddl, db, ms[n]);
      if kill > 0 && next.Some? {
        assert Ids(ms[n0..n + 1]) == newly + [ms[n].id];
        n' := RestAt(ddl, s0, ms, next.value, n0, n + 1, done, newly + [ms[n].id], kill - 1);
      }
    }
  }

  /** One run keeps the ledger a prefix of the list and the schema its fold; it
      stops short only at a statement that raises or when killed, and reports
      exactly what it applied. */
  lemma RunKeepsPrefix<S>(ddl: Ddl<S>, s0: S, ms: seq<Migration>, db: Db<S>, n: nat, kill: nat) returns (n': nat)
    requires Unique(ms) && At(ddl, s0, ms, db, n)
    ensures var (db', r) := RunOnce(ddl, db, ms, kill);
            Ends(ddl, s0, ms, db', r, n, n') && (r.Killed? ==> n' == n + kill)
  {
    assert Ids(ms[n..n]) == [];
    assert ms[0..] == ms;
    Skips(ddl, ms, db, 0, n, LedgerIds(db), kill);
    n' := RestAt(ddl, s0, ms, db, n, n, LedgerIds(db), [], kill);
  }

  /** A release ships a list that continues the one before; its run may be cut. */
  datatype Release = Release(ms: seq<Migration>, kill: nat)

  ghost predicate Growing(rs: seq<Release>) {
    && (forall i :: 0 <= i < |rs| ==> Unique(rs[i].ms))
    && (forall i, j :: 0 <= i < j < |rs| ==> rs[i].ms <= rs[j].ms)
  }

  function History<S>(ddl: Ddl<S>, s0: S, rs: seq<Release>): Db<S> {
    if rs == [] then Db(s0, [])
    else RunOnce(ddl, History(ddl, s0, rs[..|rs| - 1]), rs[|rs| - 1].ms, rs[|rs| - 1].kill).0
  }

  lemma AtLonger<S>(ddl: Ddl<S>, s0: S, ms: seq<Migration>, more: seq<Migration>, db: Db<S>, n: nat)
    requires ms <= more && At(ddl, s0, ms, db, n)
    ensures At(ddl, s0, more, db, n)
  {
    assert more[..n] == ms[..n];
  }

  /** After any number of successful, failed or interrupted runs of a growing
      list, the ledger is a prefix of the newest list and the schema is the fold
      of exactly that prefix. */
  lemma {:induction false} LedgerIsPrefix<S>(ddl: Ddl<S>, s0: S, rs: seq<Release>) returns (n: nat)
    requires Growing(rs) && rs != []
    ensures At(ddl, s0, rs[|rs| - 1].ms, History(ddl, s0, rs), n)
    decreases |rs|
  {
    var k := |rs| - 1;
    n := 0;
    assert rs[k].ms[..0] == [] && Ids([]) == [];
    if k > 0 {
      n := LedgerIsPrefix(ddl, s0, rs[..k]);
      AtLonger(ddl, s0, rs[k - 1].ms, rs[k].ms, History(ddl, s0, rs[..k]), n);
    }
    n := RunKeepsPrefix(ddl, s0, rs[k].ms, History(ddl, s0, rs[..k]), n, rs[k].kill);
  }

  /** A run after full success applies nothing and changes nothing. */
  lemma RerunAppliesNothing<S>(ddl: Ddl<S>, s0: S, ms: seq<Migration>, db: Db<S>, kill: nat, again: nat)
    requires Unique(ms) && (exists n :: At(ddl, s0, ms, db, n)) && RunOnce(ddl, db, ms, kill).1.Finished?
    ensures var full := RunOnce(ddl, db, ms, kill).0; RunOnce(ddl, full, ms, again) == (full, Finished([]))
  {
    var n :| At(ddl, s0, ms, db, n);
    var n' := RunKeepsPrefix(ddl, s0, ms, db, n, kill);
    var full := RunOnce(ddl, db, ms, kill).0;
    AllDone(ddl, full, ms, 0, LedgerIds(full), again);
    assert ms[0..] == ms;
  }

  lemma {:induction false} AllDone<S>(ddl: Ddl<S>, db: Db<S>, ms: seq<Migration>, i: nat, done: set<Id>, kill: nat)
    requires i <= |ms| && done == LedgerIds(db) && db.ledger == Ids(ms)
    ensures Rest(ddl, db, ms[i..], done, [], kill) == (db, Finished([]))
    decreases |ms| - i
  {
    if i < |ms| {
      assert Ids(ms)[i] == ms[i].id && ms[i..][1..] == ms[i + 1..];
      AllDone(ddl, db, ms, i + 1, done, kill);
    }
  }
}
