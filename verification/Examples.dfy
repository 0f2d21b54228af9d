/** Concrete runs that show where the claims stop: what happens without the
    assumption, and that a bound is reached. */
module Examples {
  import opened Core
  import opened StoreSpec
  import opened Machine
  import P = Policies
  import SD = SingleDriver
  import opened Books
  import C = Connectors
  import L = Laws

  const ONLY_STEP := Step(TerminateNode, (c: Dict) => Some(map[]), 1, None, None)
  const FLOW := Workflow(map["end" := ONLY_STEP], "end", 1.0, 0)
  const SYSTEM := Env(map["wf" := FLOW], map[], map[], (q: P.Request) => Deny)

  const FIRE := Fire("run", "tenant", "wf", 1, map[], "key", false)

  const PREFIX := [FIRE, Drive(0, Proceed), Drive(0, Proceed)]

  /** Fired, entered, and about to commit its only step. */
  lemma AboutToCommit()
    ensures var w := Exec(SYSTEM, INIT, PREFIX);
            && 0 in w.drivers && w.drivers[0].pc == Advancing(Frame("end", "end", 1, false), None)
            && w.drivers[0].run.info.id == "run" && w.drivers[0].run.info.tenant == "tenant" && w.drivers[0].run.steps == 1
            && "run" in w.s.tables.runs && w.s.tables.runs["run"].status == Pending
            && w.s.tables.runs["run"].info == w.drivers[0].run.info && CanCommit(w.s, w.drivers[0])
  {
    var w1 := Next(SYSTEM, INIT, FIRE);
    assert w1.drivers[0].pc == Top("end");
    var w2 := Next(SYSTEM, w1, Drive(0, Proceed));
    assert w2.drivers[0].pc == Ready(Frame("end", "end", 1, false));
    var w3 := Next(SYSTEM, w2, Drive(0, Proceed));
    assert w3.drivers[0].pc == Advancing(Frame("end", "end", 1, false), None);
    var a, b := [Drive(0, Proceed), Drive(0, Proceed)], [Drive(0, Proceed)];
    assert PREFIX[1..] == a && a[1..] == b && b[1..] == [];
    assert Exec(SYSTEM, w2, b) == Exec(SYSTEM, w3, []);
    assert Exec(SYSTEM, w1, a) == Exec(SYSTEM, w2, b);
    assert Exec(SYSTEM, INIT, PREFIX) == Exec(SYSTEM, w1, a);
  }

  lemma RaceFrom(w: World)
    requires 0 in w.drivers && w.drivers[0].pc == Advancing(Frame("end", "end", 1, false), None)
    requires w.drivers[0].run.info.id == "run" && w.drivers[0].run.info.tenant == "tenant" && CanCommit(w.s, w.drivers[0])
    requires "run" in w.s.tables.runs && w.s.tables.runs["run"].status == Pending
    ensures var w1 := Next(SYSTEM, w, Cancel("tenant", "run"));
            var w2 := Next(SYSTEM, w1, Drive(0, Proceed));
            && "run" in w1.s.tables.runs && w1.s.tables.runs["run"].status == Canceled
            && "run" in w2.s.tables.runs && w2.s.tables.runs["run"].status == Succeeded
  {
    SD.CancelLands(SYSTEM, w, "tenant", "run");
    SD.LastCommit(SYSTEM, Next(SYSTEM, w, Cancel("tenant", "run")), 0, Frame("end", "end", 1, false), Proceed);
  }

  /** From the initial state: a cancel during the last step is committed, and
      then overwritten by the driver's commit. */
  lemma CancelRace(w: World)
    requires w == Exec(SYSTEM, INIT, PREFIX)
    ensures var w1 := Next(SYSTEM, w, Cancel("tenant", "run"));
            var w2 := Next(SYSTEM, w1, Drive(0, Proceed));
            && "run" in w1.s.tables.runs && w1.s.tables.runs["run"].status == Canceled
            && "run" in w2.s.tables.runs && w2.s.tables.runs["run"].status == Succeeded
  {
    AboutToCommit();
    RaceFrom(w);
  }

  /** The step bound is reached: with a budget of no steps one is taken. */
  lemma OneStepTooMany(w: World)
    requires w == Exec(SYSTEM, INIT, PREFIX)
    ensures var runs := Next(SYSTEM, w, Drive(0, Proceed)).s.tables.runs;
            "run" in runs && runs["run"].status == Succeeded && runs["run"].steps == FLOW.maxSteps + 1
  {
    AboutToCommit();
    var d := w.drivers[0];
    assert AllOf(d.buffer + PlanAdvancing(w.s, d, None).events, d.run.info.tenant);
  }

  // ---- an exception that leaves no trace -------------------------------------------------------

  /** A workflow whose only edge leads nowhere. */
  const STRAY := Step(BranchNode([]), (c: Dict) => Some(map[]), 1, None, Some("nowhere"))
  const OPEN_FLOW := Workflow(map["start" := STRAY], "start", 1.0, 5)
  const OPEN_SYSTEM := Env(map["wf" := OPEN_FLOW], map[], map[], (q: P.Request) => Deny)

  const GO := Drive(0, Proceed)

  /** The driver after the fire and so many of its steps. */
  function Walk(n: nat): World
    decreases n
  {
    if n == 0 then Next(OPEN_SYSTEM, INIT, FIRE) else Next(OPEN_SYSTEM, Walk(n - 1), GO)
  }

  lemma EntersStray()
    ensures var w := Walk(2);
            && 0 in w.drivers && w.drivers[0].pc == Advancing(Frame("start", "start", 1, false), Some("nowhere"))
            && w.drivers[0].run.info == RunInfo("run", "tenant", "wf", 1, map[], "key") && w.drivers[0].run.status == Running
            && w.drivers.Keys == {0} && "run" in w.s.tables.runs
            && w.s.tables.runs["run"].info == w.drivers[0].run.info && CanCommit(w.s, w.drivers[0])
  {
    assert Walk(0).drivers[0].pc == Top("start");
    assert Walk(1).drivers[0].pc == Ready(Frame("start", "start", 1, false));
    assert Select([], STRAY.next, Walk(1).drivers[0].run.context) == Route(true, false, Some("nowhere"));
  }

  lemma CommitsStray()
    ensures var w := Walk(3);
            && 0 in w.drivers && w.drivers[0].pc == Top("nowhere") && w.drivers.Keys == {0}
            && w.drivers[0].run.info.workflow == "wf"
            && "run" in w.s.tables.runs && w.s.tables.runs["run"].status == Running
  {
    EntersStray();
    var w := Walk(2);
    var d := w.drivers[0];
    assert d.buffer + [] == d.buffer;
  }

  /** From the initial state: the walk comes to a step that does not exist, the
      exception leaves the engine, and the run is left RUNNING with no driver. */
  lemma EscapedRun()
    ensures var acts := [FIRE, GO, GO, GO, GO];
            var w := Exec(OPEN_SYSTEM, INIT, acts);
            && SD.SerialRun(OPEN_SYSTEM, INIT, acts)
            && w.drivers == map[] && "run" in w.s.tables.runs && w.s.tables.runs["run"].status == Running
  {
    CommitsStray();
    var w := Walk(4);
    assert w.s.tables == Walk(3).s.tables && w.drivers == Walk(3).drivers - {0};
    var a, b, c, d := [GO, GO, GO, GO], [GO, GO, GO], [GO, GO], [GO];
    assert [FIRE, GO, GO, GO, GO][1..] == a && a[1..] == b && b[1..] == c && c[1..] == d && d[1..] == [];
    ExecCons(OPEN_SYSTEM, Walk(3), GO, []);
    ExecCons(OPEN_SYSTEM, Walk(2), GO, d);
    ExecCons(OPEN_SYSTEM, Walk(1), GO, c);
    ExecCons(OPEN_SYSTEM, Walk(0), GO, b);
    ExecCons(OPEN_SYSTEM, INIT, FIRE, a);
  }

  lemma ExecCons(env: Env, w: World, a: Action, rest: seq<Action>)
    ensures Exec(env, w, [a] + rest) == Exec(env, Next(env, w, a), rest)
    ensures SD.Serial(w, a) && SD.SerialRun(env, Next(env, w, a), rest) ==> SD.SerialRun(env, w, [a] + rest)
  {
    assert ([a] + rest)[1..] == rest;
  }

  // ---- two drivers of one run ----------------------------------------------------------------------

  /** Fire, start a second driver, let both enter the only step and commit it. */
  const RACE := [FIRE, Start("tenant", "run", false), GO, GO, Drive(1, Proceed), Drive(1, Proceed), GO, Drive(1, Proceed)]

  function Raced(n: nat): World
    requires n <= |RACE|
  {
    if n == 0 then INIT else Next(SYSTEM, Raced(n - 1), RACE[n - 1])
  }

  const COMMITTING := Advancing(Frame("end", "end", 1, false), None)

  lemma BothFired()
    ensures var w := Raced(2);
            && w.drivers.Keys == {0, 1} && w.s.tables.events == []
            && "run" in w.s.tables.runs && w.s.tables.runs["run"].info == RunInfo("run", "tenant", "wf", 1, map[], "key")
            && w.drivers[0] == Driver(0, false, w.s.tables.runs["run"].(status := Running),
                                      [Event("run", "tenant", TriggerFired, None, 0.0, Obj(map[]))], Top("end"))
            && w.drivers[1] == Driver(1, false, w.s.tables.runs["run"].(status := Running), [], Top("end"))
            && w.s.tables.runs["run"].steps == 0 && w.s.tables.runs["run"].cost == 0.0
  {
    assert RACE[0] == FIRE && RACE[1] == Start("tenant", "run", false);
    assert Raced(1) == Next(SYSTEM, INIT, FIRE);
  }

  function Entry(): Event { Event("run", "tenant", StateTransition, Some("end"), 0.0, Str("end")) }

  ghost predicate Ours(d: Driver) {
    d.run.info == RunInfo("run", "tenant", "wf", 1, map[], "key") && d.run.cost == 0.0
  }

  /** Two steps of driver `i`: it enters the step and comes to its commit. */
  lemma Enters(w: World, i: nat)
    requires i in w.drivers && w.drivers[i].pc == Top("end") && Ours(w.drivers[i]) && w.drivers[i].run.steps == 0 && w.drivers[i].id == i
    ensures var d := w.drivers[i];
            Next(SYSTEM, Next(SYSTEM, w, Drive(i, Proceed)), Drive(i, Proceed)) ==
            w.(drivers := w.drivers[i := Driver(i, d.sync, d.run.(steps := 1), d.buffer + [Entry()], COMMITTING)])
  {
    var d := w.drivers[i];
    var w1 := Next(SYSTEM, w, Drive(i, Proceed));
    assert w.s.log + [] == w.s.log;
    assert d.buffer + [Entry()] + [] == d.buffer + [Entry()];
    assert w1 == w.(drivers := w.drivers[i := Driver(i, d.sync, d.run.(steps := 1), d.buffer + [Entry()],
                                                     Ready(Frame("end", "end", 1, false)))]);
    var d1 := w1.drivers[i];
    assert d1.buffer + [] + [] == d1.buffer;
    var w2 := Next(SYSTEM, w1, Drive(i, Proceed));
    assert w2.s == w1.s;
  }

  /** The commit of driver `i`, whatever the row says by then. */
  lemma Commits(w: World, i: nat)
    requires i in w.drivers && w.drivers[i].pc == COMMITTING && Ours(w.drivers[i]) && Mine(w.drivers[i].buffer, w.drivers[i].run.info)
    requires "run" in w.s.tables.runs && w.s.tables.runs["run"].info == w.drivers[i].run.info
    ensures var w', d := Next(SYSTEM, w, Drive(i, Proceed)), w.drivers[i];
            && w'.drivers == w.drivers - {i}
            && "run" in w'.s.tables.runs && w'.s.tables.runs["run"].info == d.run.info
            && w'.s.tables.runs["run"].steps == d.run.steps
            && |w'.s.tables.events| == |w.s.tables.events| + |d.buffer| + 1
            && w'.s.tables.events[..|w'.s.tables.events| - 1] == w.s.tables.events + d.buffer
            && var last := w'.s.tables.events[|w'.s.tables.events| - 1];
               Announces(last)
  {
    var d := w.drivers[i];
    var p := PlanAdvancing(w.s, d, None);
    assert AllOf(d.buffer + p.events, d.run.info.tenant);
    assert w.s.tables.events + (d.buffer + p.events) == w.s.tables.events + d.buffer + p.events;
  }

  const TRIGGER := Event("run", "tenant", TriggerFired, None, 0.0, Obj(map[]))

  ghost predicate Announces(e: Event) {
    e.kind == RunSucceeded && e.run == "run" && e.tenant == "tenant"
  }

  /** Both drivers are about to commit the step. */
  ghost predicate Poised(w: World) {
    && w.drivers.Keys == {0, 1} && w.s.tables.events == []
    && (forall i :: i in w.drivers ==> w.drivers[i].pc == COMMITTING && Ours(w.drivers[i]) && w.drivers[i].run.steps == 1)
    && w.drivers[0].buffer == [TRIGGER, Entry()] && w.drivers[1].buffer == [Entry()]
    && "run" in w.s.tables.runs && w.s.tables.runs["run"].info == w.drivers[0].run.info
  }

  lemma BothEntered()
    ensures Poised(Raced(6))
  {
    BothFired();
    assert RACE[2] == GO && RACE[3] == GO && RACE[4] == Drive(1, Proceed) && RACE[5] == Drive(1, Proceed);
    EnterBoth(Raced(2), Raced(4), Raced(6));
  }

  lemma EnterBoth(w2: World, w4: World, w6: World)
    requires w2.drivers.Keys == {0, 1} && w2.s.tables.events == []
    requires forall i :: i in w2.drivers ==>
               w2.drivers[i].pc == Top("end") && Ours(w2.drivers[i]) && w2.drivers[i].run.steps == 0 && w2.drivers[i].id == i
    requires w2.drivers[0].buffer == [TRIGGER] && w2.drivers[1].buffer == []
    requires "run" in w2.s.tables.runs && w2.s.tables.runs["run"].info == w2.drivers[0].run.info
    requires w4 == Next(SYSTEM, Next(SYSTEM, w2, GO), GO)
    requires w6 == Next(SYSTEM, Next(SYSTEM, w4, Drive(1, Proceed)), Drive(1, Proceed))
    ensures Poised(w6)
  {
    Enters(w2, 0);
    Enters(w4, 1);
    assert [TRIGGER] + [Entry()] == [TRIGGER, Entry()] && [] + [Entry()] == [Entry()];
  }

  /** From the initial state, with no steps budgeted: two drivers of the run both
      enter and commit its step. The committed count is one, the log holds two
      entries and two announcements. */
  lemma TwoEntries()
    ensures var t := Exec(SYSTEM, INIT, RACE).s.tables;
            && "run" in t.runs && t.runs["run"].steps == 1 == FLOW.maxSteps + 1
            && Count(EventsOf(t.events, "run")) == 2
            && exists i, j :: 0 <= i < j < |t.events| && t.events[i].kind == RunSucceeded && t.events[j].kind == RunSucceeded
  {
    BothCommitted();
    RacedExec();
    Tally(Raced(7).s.tables.events, Raced(8).s.tables.events, TRIGGER);
  }

  lemma BothCommitted()
    ensures TwoCommits(Raced(7).s.tables, Raced(8).s.tables)
  {
    BothEntered();
    assert RACE[6] == GO && RACE[7] == Drive(1, Proceed);
    CommitBoth(Raced(6), Raced(7), Raced(8));
  }

  ghost predicate TwoCommits(t7: Tables, t8: Tables) {
    && "run" in t8.runs && t8.runs["run"].steps == 1
    && |t7.events| == 3 && t7.events[..2] == [TRIGGER, Entry()] && Announces(t7.events[2])
    && |t8.events| == 5 && t8.events[..4] == t7.events + [Entry()] && Announces(t8.events[4])
  }

  lemma CommitBoth(w6: World, w7: World, w8: World)
    requires Poised(w6) && w7 == Next(SYSTEM, w6, GO) && w8 == Next(SYSTEM, w7, Drive(1, Proceed))
    ensures TwoCommits(w7.s.tables, w8.s.tables)
  {
    Commits(w6, 0);
    assert [] + [TRIGGER, Entry()] == [TRIGGER, Entry()];
    assert w7.drivers[1] == w6.drivers[1];
    Commits(w7, 1);
  }

  lemma RacedExec()
    ensures Exec(SYSTEM, INIT, RACE) == Raced(8)
  {
    RacedPrefix(8);
    assert RACE[..8] == RACE;
  }

  lemma {:induction false} RacedPrefix(n: nat)
    requires n <= |RACE|
    ensures Exec(SYSTEM, INIT, RACE[..n]) == Raced(n)
  {
    if n > 0 {
      RacedPrefix(n - 1);
      assert RACE[..n] == RACE[..n - 1] + [RACE[n - 1]];
      SD.JoinRuns(SYSTEM, INIT, RACE[..n - 1], [RACE[n - 1]]);
      ExecCons(SYSTEM, Raced(n - 1), RACE[n - 1], []);
      assert [RACE[n - 1]] + [] == [RACE[n - 1]];
    }
  }

  lemma Tally(a: seq<Event>, b: seq<Event>, trigger: Event)
    requires |a| == 3 && a[..2] == [trigger, Entry()] && |b| == 5 && b[..4] == a + [Entry()]
    requires trigger.run == "run" && trigger.tenant == "tenant" && trigger.kind == TriggerFired
    requires Announces(a[2]) && Announces(b[4])
    ensures Count(EventsOf(b, "run")) == 2 && b[2].kind == RunSucceeded && b[4].kind == RunSucceeded
  {
    assert b[..4][0] == trigger && b[..4][1] == Entry() && b[..4][2] == a[2] && b[..4][3] == Entry();
    assert Mine(b, RunInfo("run", "tenant", "wf", 1, map[], "key"));
    EventsMine(b, RunInfo("run", "tenant", "wf", 1, map[], "key"), "run");
    Two(b[0], b[1]);
    Two(b[2], b[3]);
    One(b[4]);
    Append([b[0], b[1]], [b[2], b[3]]);
    Append([b[0], b[1]] + [b[2], b[3]], [b[4]]);
    assert b == [b[0], b[1]] + [b[2], b[3]] + [b[4]];
  }

  // ---- a half-open breaker ----------------------------------------------------------------------------

  const EAGER := C.Config(1, 0.05, 2.0, 1, 30.0)
  const OPENED := C.Recorded(EAGER, C.CLOSED, C.Reply(C.Transient, 0.0))
  const DOWN: nat -> C.Reply := (i: nat) => C.Reply(C.Transient, 30.0)

  /** Tripped at time 0 with a cooldown of 30: at time 30 one call is let through,
      and so is a second one that asks before the first has an outcome; and each
      of them invokes the operation twice. */
  lemma TwoTrials()
    ensures OPENED == C.Breaker(1, Some(0.0)) && !C.Allows(EAGER, OPENED, 29.0)
    ensures C.Allows(EAGER, OPENED, 30.0) && C.Allows(EAGER, OPENED, 30.5)
    ensures C.Attempts(EAGER.maxRetries, DOWN, 0) == 2
  {
    assert C.Attempts(1, DOWN, 2) == 2;
    assert C.Attempts(1, DOWN, 1) == 2;
  }

  /** The same by the objects themselves. */
  method TwoTrialsRun() returns (first: bool, second: bool, invoked: nat)
    ensures first && second && invoked == 2
  {
    var connector := new C.Connector(EAGER);
    connector.breaker.RecordFailure(0.0);
    first := connector.breaker.Allow(30.0);
    second := connector.breaker.Allow(30.5);
    TwoTrials();
    var _, n, _ := connector.Run(DOWN, 30.0);
    invoked := n;
  }

  // ---- an agent that names a node's key ----------------------------------------------------------------

  const CLERK := Agent("clerk", ["pay"], 8)
  const PAY := Tool("pay", true, 0.0, (a: Dict) => Get(a, "amount"))
  const ASK := Step(AgentNode("clerk"), (c: Dict) => Some(map[]), 1, None, Some("post"))
  const POST := Step(ToolNode("pay"), (c: Dict) => Some(map["amount" := Num(7.0)]), 1, None, None)
  const PAYING := Workflow(map["ask" := ASK, "post" := POST], "ask", 1.0, 5)
  const BANK := Env(map["wf" := PAYING], map["pay" := PAY], map["clerk" := CLERK], (q: P.Request) => Allow)

  /** The call as the model wrote it: with the key of the node that comes next. */
  const FORGERY := Call("pay", map["_idempotency_key" := Str("run:post:pay"), "amount" := Num(1.0)])

  const ASKED := [FIRE, GO, GO, Drive(0, Respond(Response(0.0, ToolCalls([FORGERY])))), GO, Drive(0, Invoke), Arrive(2)]

  function Asked(n: nat): World
    requires n <= |ASKED|
  {
    if n == 0 then INIT else Next(BANK, Asked(n - 1), ASKED[n - 1])
  }

  lemma {:induction false} AskedRest(n: nat)
    requires n <= |ASKED|
    ensures Exec(BANK, INIT, ASKED) == Exec(BANK, Asked(n), ASKED[n..])
  {
    if n == 0 {
      assert ASKED[0..] == ASKED;
    } else {
      AskedRest(n - 1);
      assert ASKED[n - 1..][1..] == ASKED[n..];
    }
  }

  const ASKING := Frame("ask", "ask", 1, false)

  const TASK: Dict := map["email" := Obj(map[])]

  /** The one driver is at `pc`, and no entry exists yet. */
  ghost predicate Stands(w: World, pc: Pc) {
    && 0 in w.drivers && w.drivers[0].id == 0 && w.drivers[0].pc == pc && w.s.entries == map[]
    && w.drivers[0].run.info == RunInfo("run", "tenant", "wf", 1, map[], "key")
  }

  lemma AskedEnters()
    ensures Stands(Asked(3), Think(ASKING, 0, TASK, [])) && Asked(3).s.log == []
  {
    assert ASKED[0] == FIRE && ASKED[1] == GO && ASKED[2] == GO;
    assert Asked(1) == Next(BANK, INIT, FIRE);
    L.EntersWithinBudget(BANK, Asked(1).s, Asked(1).drivers[0], "ask", Proceed);
    L.AgentBegins(BANK, Asked(2).s, Asked(2).drivers[0], ASKING, "clerk", map[], Proceed);
  }

  lemma AskedCalls()
    ensures Stands(Asked(4), Calls(ASKING, 0, TASK, [FORGERY], [])) && |Asked(4).s.log| == 1 && Asked(4).s.log[0].Heard?
  {
    AskedEnters();
    assert ASKED[3] == Drive(0, Respond(Response(0.0, ToolCalls([FORGERY]))));
    L.AgentCalls(BANK, Asked(3).s, Asked(3).drivers[0], ASKING, 0, TASK, [], "clerk", 0.0, [FORGERY]);
  }

  lemma AskedGated()
    ensures Stands(Asked(5), Calling(ASKING, 0, TASK, [FORGERY], [], false))
    ensures |Asked(5).s.log| == 2 && Asked(5).s.log[0].Heard? && Asked(5).s.log[1].Decided?
  {
    AskedCalls();
    assert ASKED[4] == GO && [FORGERY] + [] == [FORGERY];
    L.AgentGated(BANK, Asked(4).s, Asked(4).drivers[0], ASKING, 0, TASK, FORGERY, [], [], "clerk", Proceed);
  }

  lemma ForgeryNames()
    ensures OpKey(FORGERY.args) == Str(EffectKey("run", "post", "pay")) && PAY.post(FORGERY.args) == Num(1.0)
  {
    assert EffectKey("run", "post", "pay") == "run:post:pay";
  }

  /** The agent's call is the one operation posted, under the node's key. */
  ghost predicate OnlyForged(sh: Shared) {
    && |sh.log| == 3 && sh.log[0].Heard? && sh.log[1].Decided?
    && sh.log[2].Posted? && sh.log[2].caller == ByAgent("clerk") && sh.log[2].step == "ask"
    && sh.log[2].key == Str(EffectKey("run", "post", "pay")) && sh.log[2].value == Num(1.0)
  }

  lemma PostsForgery(w: World)
    requires Stands(w, Calling(ASKING, 0, TASK, [FORGERY], [], false))
    requires |w.s.log| == 2 && w.s.log[0].Heard? && w.s.log[1].Decided?
    ensures var w' := Next(BANK, w, Drive(0, Invoke)); w'.s.entries == map[] && OnlyForged(w'.s)
  {
    assert [FORGERY] + [] == [FORGERY];
    ForgeryNames();
    L.AgentPosts(BANK, w.s, w.drivers[0], ASKING, 0, TASK, FORGERY, [], [], false, "clerk");
  }

  lemma LandsForgery(w: World)
    requires w.s.entries == map[] && OnlyForged(w.s)
    ensures var w' := Next(BANK, w, Arrive(2));
            w'.s.log == w.s.log && w'.s.entries == map[Str(EffectKey("run", "post", "pay")) := Num(1.0)]
  {
    L.Applied(w.s, 2, Str(EffectKey("run", "post", "pay")), Num(1.0));
  }

  lemma LastTwo(w: World, rest: seq<Action>)
    requires rest == [Drive(0, Invoke), Arrive(2)] && Stands(w, Calling(ASKING, 0, TASK, [FORGERY], [], false))
    requires |w.s.log| == 2 && w.s.log[0].Heard? && w.s.log[1].Decided?
    ensures var sh := Exec(BANK, w, rest).s;
            OnlyForged(sh) && sh.entries == map[Str(EffectKey("run", "post", "pay")) := Num(1.0)]
  {
    var w1 := Next(BANK, w, Drive(0, Invoke));
    PostsForgery(w);
    LandsForgery(w1);
    ExecCons(BANK, w1, Arrive(2), []);
    ExecCons(BANK, w, Drive(0, Invoke), [Arrive(2)]);
    assert [Drive(0, Invoke)] + [Arrive(2)] == rest && [Arrive(2)] + [] == [Arrive(2)];
  }

  /** All the actions, and where the last two of them begin. */
  lemma AskedTo(n: nat) returns (acts: seq<Action>, w: World, rest: seq<Action>)
    requires n == 5
    ensures Stands(w, Calling(ASKING, 0, TASK, [FORGERY], [], false))
    ensures |w.s.log| == 2 && w.s.log[0].Heard? && w.s.log[1].Decided?
    ensures rest == [Drive(0, Invoke), Arrive(2)] && Exec(BANK, INIT, acts) == Exec(BANK, w, rest)
  {
    AskedGated();
    AskedRest(n);
    acts, w, rest := ASKED, Asked(n), ASKED[n..];
  }

  /** From the initial state: the entry under the key of step `post` and tool `pay` is
      what an agent's call in another step made of its arguments; the node itself has
      posted nothing. */
  lemma ForgedEntry() returns (acts: seq<Action>)
    ensures var sh := Exec(BANK, INIT, acts).s;
            && sh.entries == map[Str(EffectKey("run", "post", "pay")) := Num(1.0)]
            && (forall i :: 0 <= i < |sh.log| && sh.log[i].Posted? ==> sh.log[i].caller == ByAgent("clerk") && sh.log[i].step == "ask")
  {
    var w, rest;
    acts, w, rest := AskedTo(5);
    LastTwo(w, rest);
  }
}
