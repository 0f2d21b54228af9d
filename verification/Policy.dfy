/** The policy gate: rules sorted once by priority, the first rule that matches
    or raises decides, and anything undecided is denied for mutating tools. */
module Policies {
  import opened Core

  datatype Match = Yes | No | Raised

  datatype Rule = Rule(
    name: string, priority: int, effect: Effect, approvers: seq<string>,
    applies: (Agent, Tool, Dict, Dict) -> Match)

  datatype Reason = NotOnAllowList | RuleErrored(rule: string) | RuleMatched(rule: string) | Default

  datatype Decision = Decision(effect: Effect, reason: Reason, approvers: seq<string>)

  /** What a rule is asked about. */
  datatype Request = Request(agent: Agent, tool: Tool, args: Dict, ctx: Dict)

  // ---- the engine -------------------------------------------------------

  function Ask(r: Rule, q: Request): Match {
    r.applies(q.agent, q.tool, q.args, q.ctx)
  }

  /** `sorted(policies, key=priority)`: a stable sort, so `r`, which comes
      earlier in the list than everything in `rs`, goes before its equals. */
  function Insert(r: Rule, rs: seq<Rule>): seq<Rule> {
    if rs == [] then [r]
    else if r.priority <= rs[0].priority then [r] + rs
    else [rs[0]] + Insert(r, rs[1..])
  }

  function Sort(rules: seq<Rule>): seq<Rule> {
    if rules == [] then [] else Insert(rules[0], Sort(rules[1..]))
  }

  /** The early-return scan over the sorted rules. */
  function Scan(rules: seq<Rule>, q: Request): Decision {
    if rules == [] then
      Decision(if q.tool.sideEffect then Deny else Allow, Default, [])
    else
      match Ask(rules[0], q)
      case Raised => Decision(Deny, RuleErrored(rules[0].name), [])
      case Yes => Decision(rules[0].effect, RuleMatched(rules[0].name), rules[0].approvers)
      case No => Scan(rules[1..], q)
  }

  function Check(rules: seq<Rule>, q: Request): Decision {
    if q.tool.name !in q.agent.tools then Decision(Deny, NotOnAllowList, [])
    else Scan(Sort(rules), q)
  }

  // ---- what the decision is, without sorting or scanning ----------------

  ghost predicate Decisive(r: Rule, q: Request) {
    !Ask(r, q).No?
  }

  /** Rule `i` is the least decisive rule in (priority, list position) order. */
  ghost predicate Governs(rules: seq<Rule>, i: nat, q: Request) {
    && i < |rules|
    && Decisive(rules[i], q)
    && forall j :: 0 <= j < |rules| && Decisive(rules[j], q) ==>
         rules[i].priority < rules[j].priority || (rules[i].priority == rules[j].priority && i <= j)
  }

  ghost predicate Silent(rules: seq<Rule>, q: Request) {
    forall j :: 0 <= j < |rules| ==> !Decisive(rules[j], q)
  }

  ghost function Verdict(r: Rule, q: Request): Decision {
    if Ask(r, q).Raised? then Decision(Deny, RuleErrored(r.name), [])
    else Decision(r.effect, RuleMatched(r.name), r.approvers)
  }

  // ---- proof ------------------------------------------------------------

  ghost predicate Ascending(rs: seq<Rule>) {
    |rs| < 2 || (rs[0].priority <= rs[1].priority && Ascending(rs[1..]))
  }

  /** Priority of the first decisive rule. */
  ghost function First(rs: seq<Rule>, q: Request): Option<int> {
    if rs == [] then None
    else if Decisive(rs[0], q) then Some(rs[0].priority)
    else First(rs[1..], q)
  }

  lemma {:induction false} FirstAtLeastHead(rs: seq<Rule>, q: Request)
    requires Ascending(rs) && rs != []
    ensures First(rs, q).Some? ==> rs[0].priority <= First(rs, q).value
  {
    if |rs| > 1 && !Decisive(rs[0], q) {
      FirstAtLeastHead(rs[1..], q);
    }
  }

  lemma {:induction false} InsertAscending(r: Rule, rs: seq<Rule>)
    requires Ascending(rs)
    ensures Ascending(Insert(r, rs))
    ensures Insert(r, rs)[0] == if rs == [] || r.priority <= rs[0].priority then r else rs[0]
  {
    if rs == [] {
    } else if r.priority <= rs[0].priority {
      assert ([r] + rs)[1..] == rs;
    } else {
      InsertAscending(r, rs[1..]);
      assert ([rs[0]] + Insert(r, rs[1..]))[1..] == Insert(r, rs[1..]);
    }
  }

  /** A rule inserted among sorted rules takes over the scan exactly when it is
      decisive and no more urgent rule was. */
  lemma {:induction false} ScanInsert(r: Rule, rs: seq<Rule>, q: Request)
    requires Ascending(rs)
    ensures var wins := Decisive(r, q) && (First(rs, q).None? || r.priority <= First(rs, q).value);
            && Scan(Insert(r, rs), q) == (if wins then Verdict(r, q) else Scan(rs, q))
            && First(Insert(r, rs), q) == (if wins then Some(r.priority) else First(rs, q))
  {
    if rs == [] {
      assert [r][1..] == [];
    } else if r.priority <= rs[0].priority {
      assert ([r] + rs)[1..] == rs;
      FirstAtLeastHead(rs, q);
    } else {
      assert ([rs[0]] + Insert(r, rs[1..]))[1..] == Insert(r, rs[1..]);
      if !Decisive(rs[0], q) {
        ScanInsert(r, rs[1..], q);
      }
    }
  }

  /** Position of the rule that leads in (priority, position) order. */
  ghost function Lead(rules: seq<Rule>, q: Request): (i: Option<nat>)
    ensures i.Some? ==> i.value < |rules|
  {
    if rules == [] then None
    else
      match Lead(rules[1..], q)
      case None => if Decisive(rules[0], q) then Some(0) else None
      case Some(k) =>
        if Decisive(rules[0], q) && rules[0].priority <= rules[k + 1].priority then Some(0) else Some(k + 1)
  }

  lemma {:induction false} LeadGoverns(rules: seq<Rule>, q: Request)
    ensures match Lead(rules, q)
            case None => Silent(rules, q)
            case Some(i) => Governs(rules, i, q)
  {
    if rules != [] {
      LeadGoverns(rules[1..], q);
      assert forall j :: 1 <= j < |rules| ==> rules[j] == rules[1..][j - 1];
    }
  }

  lemma {:induction false} SortLeads(rules: seq<Rule>, q: Request)
    ensures Ascending(Sort(rules))
    ensures match Lead(rules, q)
            case None => First(Sort(rules), q).None? && Scan(Sort(rules), q) == Scan([], q)
            case Some(i) => First(Sort(rules), q) == Some(rules[i].priority) &&
                            Scan(Sort(rules), q) == Verdict(rules[i], q)
  {
    if rules != [] {
      SortLeads(rules[1..], q);
      InsertAscending(rules[0], Sort(rules[1..]));
      ScanInsert(rules[0], Sort(rules[1..]), q);
    }
  }

  /** The whole decision, for every rule list and request: a tool off the agent's
      allow-list is denied, read-only ones too; otherwise the least decisive rule
      in (priority, list position) order decides, by its effect if it matched and
      with DENY if it raised; with no decisive rule only read-only tools pass. */
  lemma CheckDecides(rules: seq<Rule>, q: Request) returns (i: nat)
    ensures q.tool.name !in q.agent.tools ==> Check(rules, q) == Decision(Deny, NotOnAllowList, [])
    ensures q.tool.name in q.agent.tools && (forall j :: 0 <= j < |rules| ==> Ask(rules[j], q).No?) ==>
              Check(rules, q) == Decision(if q.tool.sideEffect then Deny else Allow, Default, [])
    ensures q.tool.name in q.agent.tools && !(forall j :: 0 <= j < |rules| ==> Ask(rules[j], q).No?) ==>
              && Governs(rules, i, q)
              && (Ask(rules[i], q).Yes? ==>
                    Check(rules, q) == Decision(rules[i].effect, RuleMatched(rules[i].name), rules[i].approvers))
              && (Ask(rules[i], q).Raised? ==> Check(rules, q) == Decision(Deny, RuleErrored(rules[i].name), []))
  {
    i := FirstMatch(rules, q);
  }

  /** Sorting then scanning takes the least decisive rule in (priority, list
      position) order; with no decisive rule only read-only tools pass. */
  lemma FirstMatch(rules: seq<Rule>, q: Request) returns (i: nat)
    ensures Silent(rules, q) ==>
              Scan(Sort(rules), q) == Decision(if q.tool.sideEffect then Deny else Allow, Default, [])
    ensures !Silent(rules, q) ==>
              Governs(rules, i, q) && Scan(Sort(rules), q) == Verdict(rules[i], q)
  {
    LeadGoverns(rules, q);
    SortLeads(rules, q);
    i := if Lead(rules, q).Some? then Lead(rules, q).value else 0;
  }

  /** Fail closed: a mutating tool is allowed exactly when it is on the agent's
      allow-list and the governing rule matched with effect ALLOW. */
  lemma FailClosed(rules: seq<Rule>, q: Request)
    requires q.tool.sideEffect
    ensures Check(rules, q).effect == Allow <==>
            && q.tool.name in q.agent.tools
            && exists i: nat :: Governs(rules, i, q) && Ask(rules[i], q).Yes? && rules[i].effect == Allow
  {
    var i := FirstMatch(rules, q);
  }

  ghost predicate DistinctPriorities(rules: seq<Rule>) {
    forall i, j :: 0 <= i < j < |rules| ==> rules[i].priority != rules[j].priority
  }

  lemma SameMembers(xs: seq<Rule>, ys: seq<Rule>, i: nat)
    requires multiset(xs) == multiset(ys) && i < |xs|
    ensures xs[i] in ys
  {
    assert xs[i] in multiset(xs);
    assert xs[i] in multiset(ys);
  }

  /** With pairwise distinct priorities the order in which rules are listed is
      irrelevant. */
  lemma OrderIndependent(xs: seq<Rule>, ys: seq<Rule>, q: Request)
    requires multiset(xs) == multiset(ys)
    requires DistinctPriorities(xs)
    ensures Check(xs, q) == Check(ys, q)
  {
    var i := FirstMatch(xs, q);
    var j := FirstMatch(ys, q);
    if Silent(xs, q) {
      forall k | 0 <= k < |ys| ensures !Decisive(ys[k], q) {
        SameMembers(ys, xs, k);
      }
    } else {
      SameMembers(xs, ys, i);
      SameMembers(ys, xs, j);
      assert xs[i].priority == ys[j].priority;
    }
  }

  // ---- the reference ruleset ---------------------------------------------

  /** `float(x)`; text is read by `parse`, and nothing means it raised. */
  function FloatOf(parse: string -> Option<real>, j: Json): Option<real> {
    match j
    case Num(n) => Some(n)
    case Bool(b) => Some(if b then 1.0 else 0.0)
    case Str(s) => parse(s)
    case _ => None
  }

  function AmountOf(parse: string -> Option<real>, args: Dict): Option<real> {
    if "amount" in args then FloatOf(parse, args["amount"]) else Some(0.0)
  }

  const AP_ENTRY := "create_ap_entry"

  function DefaultRules(parse: string -> Option<real>): seq<Rule> {
    [ Rule("read-only-ok", 10, Allow, [],
           (a: Agent, t: Tool, args: Dict, ctx: Dict) => if t.sideEffect then No else Yes),
      Rule("large-ap-entry-needs-approval", 20, RequireApproval, ["finance-team"],
           (a: Agent, t: Tool, args: Dict, ctx: Dict) =>
             if t.name != AP_ENTRY then No
             else match AmountOf(parse, args)
                  case None => Raised
                  case Some(x) => if x > 5000.0 then Yes else No),
      Rule("small-ap-entry-ok", 30, Allow, [],
           (a: Agent, t: Tool, args: Dict, ctx: Dict) => if t.name == AP_ENTRY then Yes else No) ]
  }

  /** Under the reference rules a mutating tool can only be `create_ap_entry`,
      and only up to 5000 without a human. */
  lemma DefaultGate(parse: string -> Option<real>, q: Request)
    requires q.tool.sideEffect && q.tool.name in q.agent.tools
    ensures var e := Check(DefaultRules(parse), q).effect;
            var amount := AmountOf(parse, q.args);
            && (e == Allow <==> q.tool.name == AP_ENTRY && amount.Some? && amount.value <= 5000.0)
            && (e == RequireApproval <==> q.tool.name == AP_ENTRY && amount.Some? && amount.value > 5000.0)
  {
    var rules := DefaultRules(parse);
    var i := FirstMatch(rules, q);
    assert !Decisive(rules[0], q);
    if q.tool.name == AP_ENTRY {
      assert Decisive(rules[2], q);
    }
  }

  /** The reference rules, case by case: tools off the list are denied, read-only
      ones on it allowed, mutating ones denied but for `create_ap_entry`, which is
      decided by its amount: none counts as nothing, and what is no number at all
      is denied. */
  lemma DefaultDecisions(parse: string -> Option<real>, q: Request)
    ensures var e := Check(DefaultRules(parse), q).effect;
            if q.tool.name !in q.agent.tools then e == Deny
            else if !q.tool.sideEffect then e == Allow
            else if q.tool.name != "create_ap_entry" then e == Deny
            else if "amount" !in q.args then e == Allow
            else
              match q.args["amount"]
              case Num(n) => e == if n > 5000.0 then RequireApproval else Allow
              case Bool(_) => e == Allow
              case Str(text) =>
                (match parse(text)
                 case None => e == Deny
                 case Some(n) => e == if n > 5000.0 then RequireApproval else Allow)
              case _ => e == Deny
  {
    var rules := DefaultRules(parse);
    var i := CheckDecides(rules, q);
    if q.tool.name in q.agent.tools {
      if q.tool.sideEffect {
        DefaultGate(parse, q);
      } else {
        assert Decisive(rules[0], q);
      }
    }
  }
}
