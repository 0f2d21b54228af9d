/** Cron expressions: the field parser and the matcher, against the meaning of
    their syntax. */
module Cron {
  import opened Core
  import opened Text

  // ---- integers as the parser reads them ---------------------------------------------------

  /** ASCII digits, single underscores only between digits. */
  predicate Grouped(s: string) {
    && s != [] && IsDigit(s[0]) && IsDigit(s[|s| - 1])
    && forall i :: 0 <= i < |s| ==> IsDigit(s[i]) || (s[i] == '_' && i > 0 && s[i - 1] != '_')
  }

  function Ungrouped(s: string): (d: string)
    ensures AllDigits(d)
  {
    if s == [] then []
    else if IsDigit(s[0]) then [s[0]] + Ungrouped(s[1..])
    else Ungrouped(s[1..])
  }

  /** `int(s)`; no result is a ValueError. */
  function Int(s: string): Option<int> {
    if s == [] then None
    else if s[0] == '+' || s[0] == '-' then
      if !Grouped(s[1..]) then None
      else
        var n: int := Value(Ungrouped(s[1..]));
        Some(if s[0] == '-' then -n else n)
    else if !Grouped(s) then None
    else Some(Value(Ungrouped(s)))
  }

  lemma {:induction false} UngroupedDigits(s: string)
    requires AllDigits(s)
    ensures Ungrouped(s) == s
  {
    if s != [] { UngroupedDigits(s[1..]); }
  }

  lemma IntOfDecimal(n: nat)
    ensures Int(Decimal(n)) == Some(n)
  {
    DecimalRoundTrip(n);
    UngroupedDigits(Decimal(n));
    assert IsDigit(Decimal(n)[0]);
  }

  lemma IntOfSigned(i: int)
    ensures Int(Signed(i)) == Some(i)
  {
    if i < 0 {
      DecimalRoundTrip(-i);
      UngroupedDigits(Decimal(-i));
      assert Signed(i)[1..] == Decimal(-i);
    } else {
      IntOfDecimal(i);
    }
  }

  // ---- ranges -----------------------------------------------------------------------------------

  function Nth(first: int, step: int, k: nat): int { first + k * step }

  /** Membership in `range(start, stop, step)`. */
  ghost predicate InRange(start: int, stop: int, step: int, v: int) {
    (if step > 0 then v < stop else v > stop) && exists k: nat :: v == Nth(start, step, k)
  }

  ghost function RangeSet(start: int, stop: int, step: int, lo: int, hi: int): set<int> {
    set v | lo <= v <= hi && InRange(start, stop, step, v)
  }

  datatype Bounds = Bounds(start: int, end: int, step: int)

  /** A star, a range or a number, and the step that follows it. */
  function RangeBounds(rng: string, lo: int, hi: int, step: int): Option<Bounds> {
    if rng == "*" then Some(Bounds(lo, hi, step))
    else
      var m := Find(rng, '-');
      if m < |rng| then
        var a, b := Int(rng[..m]), Int(rng[m + 1..]);
        if a.None? || b.None? then None else Some(Bounds(a.value, b.value, step))
      else
        var a := Int(rng);
        if a.None? then None else Some(Bounds(a.value, a.value, step))
  }

  /** One part of a field. */
  function PartBounds(part: string, lo: int, hi: int): Option<Bounds> {
    var k := Find(part, '/');
    var step := if k < |part| then Int(part[k + 1..]) else Some(1);
    if step.None? then None else RangeBounds(part[..k], lo, hi, step.value)
  }

  /** The values of one part within the field's bounds; a zero step raises. */
  ghost function PartSet(part: string, lo: int, hi: int): Option<set<int>> {
    var b := PartBounds(part, lo, hi);
    if b.None? || b.value.step == 0 then None
    else Some(RangeSet(b.value.start, b.value.end + 1, b.value.step, lo, hi))
  }

  ghost function PartsSet(parts: seq<string>, lo: int, hi: int): Option<set<int>> {
    if parts == [] then Some({})
    else
      var a, b := PartsSet(parts[..|parts| - 1], lo, hi), PartSet(parts[|parts| - 1], lo, hi);
      if a.None? || b.None? then None else Some(a.value + b.value)
  }

  /** The set a field denotes; no result is a ValueError. */
  ghost function FieldSet(expr: string, lo: int, hi: int): Option<set<int>> {
    PartsSet(Split(expr, ','), lo, hi)
  }

  // ---- the parser ----------------------------------------------------------------------------------

  lemma NthGrows(first: int, step: int, j: nat, k: nat)
    requires j <= k
    ensures step > 0 ==> Nth(first, step, j) <= Nth(first, step, k)
    ensures step < 0 ==> Nth(first, step, k) <= Nth(first, step, j)
  {
    assert (k - j) * step == k * step - j * step;
    if step > 0 { assert (k - j) * step >= 0; } else if step < 0 { assert (k - j) * step <= 0; }
  }

  method AddRange(values: set<int>, start: int, stop: int, step: int, lo: int, hi: int) returns (out: set<int>)
    requires step != 0
    ensures out == values + RangeSet(start, stop, step, lo, hi)
  {
    out := values;
    var v := start;
    ghost var k: nat := 0;
    assert Prefix(start, step, 0, lo, hi) == {};
    while (if step > 0 then v < stop else v > stop)
      invariant v == Nth(start, step, k)
      invariant out == values + Prefix(start, step, k, lo, hi)
      invariant k > 0 ==> if step > 0 then Nth(start, step, k - 1) < stop else Nth(start, step, k - 1) > stop
      decreases if step > 0 then stop - v else v - stop
    {
      PrefixMore(start, step, k, lo, hi);
      if lo <= v <= hi {
        out := out + {v};
      }
      v, k := v + step, k + 1;
    }
    PrefixDone(start, stop, step, k, lo, hi);
  }

  /** `x` is one of the first `k` members of the progression. */
  ghost predicate Passed(start: int, step: int, k: nat, x: int) {
    exists j: nat :: j < k && x == Nth(start, step, j)
  }

  ghost function Prefix(start: int, step: int, k: nat, lo: int, hi: int): set<int> {
    set x | lo <= x <= hi && Passed(start, step, k, x)
  }

  lemma PrefixMore(start: int, step: int, k: nat, lo: int, hi: int)
    ensures Nth(start, step, k + 1) == Nth(start, step, k) + step
    ensures var v := Nth(start, step, k);
            Prefix(start, step, k + 1, lo, hi) == Prefix(start, step, k, lo, hi) + if lo <= v <= hi then {v} else {}
  {
    assert (k + 1) * step == k * step + step;
  }

  lemma PrefixDone(start: int, stop: int, step: int, k: nat, lo: int, hi: int)
    requires step != 0
    requires if step > 0 then Nth(start, step, k) >= stop else Nth(start, step, k) <= stop
    requires k > 0 ==> if step > 0 then Nth(start, step, k - 1) < stop else Nth(start, step, k - 1) > stop
    ensures RangeSet(start, stop, step, lo, hi) == Prefix(start, step, k, lo, hi)
  {
    forall x ensures InRange(start, stop, step, x) <==> Passed(start, step, k, x) {
      if j: nat :| x == Nth(start, step, j) && InRange(start, stop, step, x) {
        if k <= j { NthGrows(start, step, k, j); }
      }
      if j: nat :| j < k && x == Nth(start, step, j) { NthGrows(start, step, j, k - 1); }
    }
  }

  method ParseField(expr: string, lo: int, hi: int) returns (values: Option<set<int>>)
    ensures values == FieldSet(expr, lo, hi)
  {
    var parts := Split(expr, ',');
    var found: set<int> := {};
    var i := 0;
    while i < |parts|
      invariant 0 <= i <= |parts|
      invariant PartsSet(parts[..i], lo, hi) == Some(found)
    {
      var part := parts[i];
      assert parts[..i + 1][..i] == parts[..i];
      var b := PartBounds(part, lo, hi);
      if b.None? || b.value.step == 0 {
        NoneSpreads(parts, i, lo, hi);
        return None;
      }
      found := AddRange(found, b.value.start, b.value.end + 1, b.value.step, lo, hi);
      i := i + 1;
    }
    assert parts[..i] == parts;
    values := Some(found);
  }

  lemma {:induction false} NoneSpreads(parts: seq<string>, i: nat, lo: int, hi: int)
    requires i < |parts| && PartSet(parts[i], lo, hi).None?
    ensures PartsSet(parts, lo, hi).None?
  {
    if i < |parts| - 1 {
      NoneSpreads(parts[..|parts| - 1], i, lo, hi);
    }
  }

  // ---- syntax trees -----------------------------------------------------------------------------------

  /** Everything the parser takes: a minus sign can stand before an upper bound or a
      step, but not before a lower bound or a single value. */
  datatype Span = Star | Single(n: nat) | Between(a: nat, b: int)

  /** A part, with the step if one is written. */
  datatype Part = Part(span: Span, step: Option<int>)

  type Field = seq<Part>

  predicate WellFormed(f: Field) {
    f != [] && forall i :: 0 <= i < |f| ==> f[i].step != Some(0)
  }

  function PrintSpan(s: Span): string {
    match s
    case Star => "*"
    case Single(n) => Decimal(n)
    case Between(a, b) => Decimal(a) + ['-'] + Signed(b)
  }

  function PrintPart(p: Part): string {
    PrintSpan(p.span) + if p.step.Some? then ['/'] + Signed(p.step.value) else []
  }

  function Print(f: Field): string {
    Join(seq(|f|, i requires 0 <= i < |f| => PrintPart(f[i])), ',')
  }

  function First(p: Part, lo: int): int {
    match p.span case Star => lo case Single(n) => n case Between(a, _) => a
  }

  /** What a part means: a literal is itself, a star runs over the whole field,
      and a step counts from the first value. A negative step counts down from the
      lower bound and stops above the upper bound plus one, so that only ranges
      written backwards have values. */
  ghost predicate Denotes(p: Part, lo: int, v: int) {
    if p.step.Some? && p.step.value < 0 then
      && p.span.Between? && p.span.b + 1 < v <= p.span.a
      && exists k: nat :: v == Nth(p.span.a, p.step.value, k)
    else
      && (p.span.Single? ==> v == p.span.n)
      && (p.span.Between? ==> p.span.a <= v <= p.span.b)
      && (p.step.Some? ==> exists k: nat :: v == Nth(First(p, lo), p.step.value, k))
  }

  ghost predicate InField(f: Field, lo: int, v: int) {
    exists i :: 0 <= i < |f| && Denotes(f[i], lo, v)
  }

  ghost function Meaning(f: Field, lo: int, hi: int): set<int> {
    set v | lo <= v <= hi && InField(f, lo, v)
  }

  // ---- parsing what was printed -------------------------------------------------------------------------

  lemma DecimalLacks(n: nat, c: char)
    requires !IsDigit(c)
    ensures Lacks(Decimal(n), c) && Decimal(n) != []
  {
    DecimalRoundTrip(n);
  }

  lemma SpanLacks(s: Span, c: char)
    requires c == ',' || c == '/'
    ensures Lacks(PrintSpan(s), c)
  {
    match s
    case Star =>
    case Single(n) => DecimalLacks(n, c);
    case Between(a, b) => DecimalLacks(a, c); SignedLacks(b, c);
  }

  lemma PartLacks(p: Part)
    ensures Lacks(PrintPart(p), ',')
  {
    SpanLacks(p.span, ',');
    if p.step.Some? { SignedLacks(p.step.value, ','); }
  }

  function EndOf(s: Span, hi: int): int {
    match s case Star => hi case Single(n) => n case Between(_, b) => b
  }

  lemma SlashFound(p: Part)
    ensures var s, k := PrintPart(p), Find(PrintPart(p), '/');
            && s[..k] == PrintSpan(p.span)
            && (p.step.Some? <==> k < |s|) && (p.step.Some? ==> s[k + 1..] == Signed(p.step.value))
  {
    var x := PrintSpan(p.span);
    SpanLacks(p.span, '/');
    if p.step.Some? {
      assert PrintPart(p) == x + ['/'] + Signed(p.step.value);
      FindAfter(x, '/', Signed(p.step.value));
    } else {
      assert PrintPart(p) == x;
      FindNone(x, '/');
    }
  }

  lemma SinglePrinted(n: nat, lo: int, hi: int, step: int)
    ensures RangeBounds(Decimal(n), lo, hi, step) == Some(Bounds(n, n, step))
  {
    IntOfDecimal(n);
    DecimalLacks(n, '-');
    DecimalLacks(n, '*');
    FindNone(Decimal(n), '-');
    assert Decimal(n)[0] != '*';
  }

  lemma BetweenPrinted(a: nat, b: int, lo: int, hi: int, step: int)
    ensures RangeBounds(PrintSpan(Between(a, b)), lo, hi, step) == Some(Bounds(a, b, step))
  {
    var rng := Decimal(a) + ['-'] + Signed(b);
    IntOfDecimal(a);
    IntOfSigned(b);
    DecimalLacks(a, '-');
    DecimalLacks(a, '*');
    FindAfter(Decimal(a), '-', Signed(b));
    assert rng[0] == Decimal(a)[0] != '*';
    assert rng[..|Decimal(a)|] == Decimal(a) && rng[|Decimal(a)| + 1..] == Signed(b);
  }

  lemma SpanPrinted(s: Span, lo: int, hi: int, step: int)
    ensures RangeBounds(PrintSpan(s), lo, hi, step) == Some(Bounds(First(Part(s, None), lo), EndOf(s, hi), step))
  {
    match s
    case Star =>
    case Single(n) => SinglePrinted(n, lo, hi, step);
    case Between(a, b) => BetweenPrinted(a, b, lo, hi, step);
  }

  lemma BoundsPrinted(p: Part, lo: int, hi: int)
    ensures PartBounds(PrintPart(p), lo, hi) ==
            Some(Bounds(First(p, lo), EndOf(p.span, hi), if p.step.Some? then p.step.value else 1))
  {
    StepPrinted(p, lo, hi);
    SpanPrinted(p.span, lo, hi, if p.step.Some? then p.step.value else 1);
  }

  lemma StepPrinted(p: Part, lo: int, hi: int)
    ensures PartBounds(PrintPart(p), lo, hi) ==
            RangeBounds(PrintSpan(p.span), lo, hi, if p.step.Some? then p.step.value else 1)
  {
    SlashFound(p);
    if p.step.Some? { IntOfSigned(p.step.value); }
  }

  ghost function PartMeaning(p: Part, lo: int, hi: int): set<int> {
    set v | lo <= v <= hi && Denotes(p, lo, v)
  }

  lemma PartPrinted(p: Part, lo: int, hi: int)
    requires p.step != Some(0)
    ensures PartSet(PrintPart(p), lo, hi) == Some(PartMeaning(p, lo, hi))
  {
    BoundsPrinted(p, lo, hi);
    var first, step := First(p, lo), if p.step.Some? then p.step.value else 1;
    forall v | lo <= v <= hi ensures InRange(first, EndOf(p.span, hi) + 1, step, v) <==> Denotes(p, lo, v) {
      DenotesRange(p, lo, hi, v);
    }
    assert RangeSet(first, EndOf(p.span, hi) + 1, step, lo, hi) == PartMeaning(p, lo, hi);
  }

  lemma DenotesRange(p: Part, lo: int, hi: int, v: int)
    requires p.step != Some(0) && lo <= v <= hi
    ensures InRange(First(p, lo), EndOf(p.span, hi) + 1, if p.step.Some? then p.step.value else 1, v) <==> Denotes(p, lo, v)
  {
    var first, step := First(p, lo), if p.step.Some? then p.step.value else 1;
    if k: nat :| v == Nth(first, step, k) {
      NthGrows(first, step, 0, k);
      assert if step > 0 then first <= v else v <= first;
    }
    if p.step.None? && first <= v { assert v == Nth(first, 1, v - first); }
    if v == first { assert v == Nth(first, step, 0); }
  }

  lemma {:induction false} PartsPrinted(f: Field, parts: seq<string>, lo: int, hi: int)
    requires |parts| == |f| && forall i :: 0 <= i < |f| ==> parts[i] == PrintPart(f[i])
    requires forall i :: 0 <= i < |f| ==> f[i].step != Some(0)
    ensures PartsSet(parts, lo, hi) == Some(Meaning(f, lo, hi))
    decreases |f|
  {
    if f == [] {
      assert Meaning(f, lo, hi) == {};
    } else {
      var n := |f| - 1;
      PartsPrinted(f[..n], parts[..n], lo, hi);
      PartPrinted(f[n], lo, hi);
      MeaningSplits(f, lo, hi);
    }
  }

  lemma MeaningSplits(f: Field, lo: int, hi: int)
    requires f != []
    ensures var n := |f| - 1; Meaning(f, lo, hi) == Meaning(f[..n], lo, hi) + PartMeaning(f[n], lo, hi)
  {
    var n := |f| - 1;
    forall v ensures v in Meaning(f, lo, hi) <==> v in Meaning(f[..n], lo, hi) || v in PartMeaning(f[n], lo, hi) {
      if i :| 0 <= i < n && Denotes(f[..n][i], lo, v) { assert Denotes(f[i], lo, v); }
      if i :| 0 <= i < |f| && Denotes(f[i], lo, v) { if i < n { assert Denotes(f[..n][i], lo, v); } }
    }
  }

  /** Parsing the text of any field gives exactly its meaning within the bounds. */
  lemma ParsePrinted(f: Field, lo: int, hi: int)
    requires WellFormed(f)
    ensures FieldSet(Print(f), lo, hi) == Some(Meaning(f, lo, hi))
  {
    var parts := seq(|f|, i requires 0 <= i < |f| => PrintPart(f[i]));
    forall i | 0 <= i < |parts| ensures Lacks(parts[i], ',') { PartLacks(f[i]); }
    SplitJoin(parts, ',');
    PartsPrinted(f, parts, lo, hi);
  }

  // ---- what is no field ------------------------------------------------------------------------------

  ghost predicate Numeral(c: char) { IsDigit(c) || c == '_' || c == '+' || c == '-' }

  /** Anything but digits, signs and underscores makes a text no number. */
  lemma BadNumber(s: string, k: nat)
    requires k < |s| && !Numeral(s[k])
    ensures Int(s).None?
  {
    if s[0] == '+' || s[0] == '-' { NotGrouped(s[1..], k - 1); } else { NotGrouped(s, k); }
  }

  lemma NotGrouped(s: string, k: nat)
    requires k < |s| && !IsDigit(s[k]) && s[k] != '_'
    ensures !Grouped(s)
  {
    if k > 0 { var before := s[k - 1]; }
  }

  /** So does the lack of digits or an underscore that is not between two; a sign in
      front counts. */
  lemma IntExamples(n: nat)
    ensures Int("").None? && Int("-").None? && Int("+").None? && Int("_1").None? && Int("1_").None?
    ensures Int(Decimal(n)) == Some(n) && Int("-" + Decimal(n)) == Some(0 - n) && Int("+" + Decimal(n)) == Some(n)
  {
    IntOfDecimal(n);
    DecimalRoundTrip(n);
    UngroupedDigits(Decimal(n));
    assert ("-" + Decimal(n))[1..] == Decimal(n) && ("+" + Decimal(n))[1..] == Decimal(n);
    assert "-"[1..] == "" && "+"[1..] == "";
  }

  /** A field with a part that is neither a star nor made of numbers raises, as does a
      step of zero. */
  lemma BadPartsRaise(parts: seq<string>, i: nat, lo: int, hi: int)
    requires i < |parts| && forall j :: 0 <= j < |parts| ==> Lacks(parts[j], ',')
    requires || parts[i] == "" || parts[i] == "*/0"
             || (exists k :: 0 <= k < |parts[i]| && !Numeral(parts[i][k]) && parts[i][k] != '/' && parts[i][k] != '*')
    ensures FieldSet(Join(parts, ','), lo, hi).None?
  {
    SplitJoin(parts, ',');
    BadPart(parts[i], lo, hi);
    NoneSpreads(parts, i, lo, hi);
  }

  lemma BadPart(part: string, lo: int, hi: int)
    requires || part == "" || part == "*/0"
             || (exists k :: 0 <= k < |part| && !Numeral(part[k]) && part[k] != '/' && part[k] != '*')
    ensures PartSet(part, lo, hi).None?
  {
    if part == "*/0" {
      assert part == "*" + ['/'] + "0";
      FindAfter("*", '/', "0");
      assert part[..1] == "*" && part[2..] == "0" && Decimal(0) == "0";
      IntOfDecimal(0);
    } else if part != "" {
      var k :| 0 <= k < |part| && !Numeral(part[k]) && part[k] != '/' && part[k] != '*';
      var m := Find(part, '/');
      if k < m { BadRange(part[..m], k, lo, hi); } else { BadNumber(part[m + 1..], k - m - 1); }
    }
  }

  lemma BadRange(rng: string, k: nat, lo: int, hi: int)
    requires k < |rng| && !Numeral(rng[k]) && rng[k] != '*'
    ensures forall step :: RangeBounds(rng, lo, hi, step).None?
  {
    var m := Find(rng, '-');
    if m == |rng| { BadNumber(rng, k); }
    else if k < m { BadNumber(rng[..m], k); }
    else { BadNumber(rng[m + 1..], k - m - 1); }
  }

  /** An expression of any other number of words than five raises. */
  lemma FiveFields(ws: seq<string>, t: Moment)
    requires |ws| != 5 && forall i :: 0 <= i < |ws| ==> Solid(ws[i]) && ws[i] != []
    ensures Matches(Join(ws, ' '), t).None?
  {
    WordsJoined(ws);
  }

  // ---- the matcher ------------------------------------------------------------------------------------------

  /** `weekday` counts from Monday, as the calendar does; cron counts from Sunday. */
  datatype Moment = Moment(minute: int, hour: int, day: int, month: int, weekday: int)

  /** What `str.split()` takes for white space. */
  predicate IsSpace(c: char) {
    var u := c as int;
    || 9 <= u <= 13 || 28 <= u <= 32 || u == 0x85 || u == 0xA0 || u == 0x1680 || 0x2000 <= u <= 0x200A
    || u == 0x2028 || u == 0x2029 || u == 0x202F || u == 0x205F || u == 0x3000
  }

  /** Words between runs of white space. */
  function Words(s: string): seq<string>
    decreases |s|
  {
    if s == [] then []
    else if IsSpace(s[0]) then Words(s[1..])
    else
      var k := WordEnd(s);
      [s[..k]] + Words(s[k..])
  }

  function WordEnd(s: string): (k: nat)
    ensures k <= |s| && (forall i :: 0 <= i < k ==> !IsSpace(s[i])) && (k < |s| ==> IsSpace(s[k]))
    ensures s != [] && !IsSpace(s[0]) ==> k > 0
  {
    if s == [] || IsSpace(s[0]) then 0 else WordEnd(s[1..]) + 1
  }

  /** The matcher; no result is a ValueError. Later fields are not even parsed
      once an earlier one does not match. */
  ghost function Matches(expr: string, t: Moment): Option<bool> {
    var w := Words(expr);
    if |w| != 5 then None
    else
      var minute := FieldSet(w[0], 0, 59);
      if minute.None? then None else if t.minute !in minute.value then Some(false)
      else
        var hour := FieldSet(w[1], 0, 23);
        if hour.None? then None else if t.hour !in hour.value then Some(false)
        else
          var month := FieldSet(w[3], 1, 12);
          if month.None? then None else if t.month !in month.value then Some(false)
          else DayMatches(w[2], w[4], t)
  }

  ghost function DayMatches(dom: string, dow: string, t: Moment): Option<bool> {
    var days := FieldSet(dom, 1, 31);
    if days.None? then None
    else
      var weekdays := FieldSet(dow, 0, 6);
      if weekdays.None? then None
      else
        var d, w := t.day in days.value, (t.weekday + 1) % 7 in weekdays.value;
        Some(if dom != "*" && dow != "*" then d || w
             else if dom != "*" then d
             else if dow != "*" then w
             else true)
  }

  /** The five fields of an expression. */
  datatype Expr = Expr(minute: Field, hour: Field, dom: Field, month: Field, dow: Field)

  ghost predicate WellFormedExpr(e: Expr) {
    WellFormed(e.minute) && WellFormed(e.hour) && WellFormed(e.dom) && WellFormed(e.month) && WellFormed(e.dow)
  }

  const ANY: Field := [Part(Star, None)]

  function Texts(e: Expr): seq<string> {
    [Print(e.minute), Print(e.hour), Print(e.dom), Print(e.month), Print(e.dow)]
  }

  /** The rule of crontab: both day fields restricted, either may match; a field
      that is anything but a plain star is restricted, a stepped star included. */
  ghost predicate Rule(e: Expr, t: Moment) {
    var d, w := t.day in Meaning(e.dom, 1, 31), (t.weekday + 1) % 7 in Meaning(e.dow, 0, 6);
    && t.minute in Meaning(e.minute, 0, 59)
    && t.hour in Meaning(e.hour, 0, 23)
    && t.month in Meaning(e.month, 1, 12)
    && (if e.dom != ANY && e.dow != ANY then d || w else (e.dom != ANY ==> d) && (e.dow != ANY ==> w))
  }

  lemma {:induction false} PrintFirst(parts: seq<string>, c: char)
    requires parts != []
    ensures |Join(parts, c)| >= |parts[0]| && Join(parts, c)[..|parts[0]|] == parts[0]
  {
  }

  lemma NoSpaces(f: Field)
    requires WellFormed(f)
    ensures Print(f) != [] && forall i :: 0 <= i < |Print(f)| ==> !IsSpace(Print(f)[i])
  {
    var parts := seq(|f|, i requires 0 <= i < |f| => PrintPart(f[i]));
    forall i | 0 <= i < |parts| ensures Solid(parts[i]) && parts[i] != [] { PartSolid(f[i]); }
    JoinSolid(parts, ',');
    PrintFirst(parts, ',');
  }

  ghost predicate Solid(s: string) {
    forall i :: 0 <= i < |s| ==> !IsSpace(s[i])
  }

  lemma DecimalSolid(n: nat)
    ensures Solid(Decimal(n)) && Decimal(n) != []
  {
    DecimalRoundTrip(n);
    assert forall i :: 0 <= i < |Decimal(n)| ==> IsDigit(Decimal(n)[i]);
  }

  lemma SignedSolid(i: int)
    ensures Solid(Signed(i)) && Signed(i) != []
  {
    DecimalSolid(if i < 0 then -i else i);
  }

  lemma PartSolid(p: Part)
    ensures Solid(PrintPart(p)) && PrintPart(p) != []
  {
    match p.span {
      case Star =>
      case Single(n) => DecimalSolid(n);
      case Between(a, b) => DecimalSolid(a); SignedSolid(b);
    }
    if p.step.Some? { SignedSolid(p.step.value); }
  }

  lemma {:induction false} JoinSolid(parts: seq<string>, c: char)
    requires !IsSpace(c) && forall i :: 0 <= i < |parts| ==> Solid(parts[i])
    ensures Solid(Join(parts, c))
  {
    if |parts| > 1 { JoinSolid(parts[1..], c); }
  }

  lemma {:induction false} WordEndSolid(w: string, rest: string)
    requires Solid(w) && (rest == [] || IsSpace(rest[0]))
    ensures WordEnd(w + rest) == |w|
  {
    if w != [] {
      assert (w + rest)[1..] == w[1..] + rest;
      WordEndSolid(w[1..], rest);
    }
  }

  /** Words separated by single spaces are found again. */
  lemma {:induction false} WordsJoined(ws: seq<string>)
    requires forall i :: 0 <= i < |ws| ==> Solid(ws[i]) && ws[i] != []
    ensures Words(Join(ws, ' ')) == ws
    decreases |ws|
  {
    if |ws| == 1 {
      assert ws[0] + [] == ws[0];
      WordEndSolid(ws[0], []);
    } else if |ws| > 1 {
      var rest := [' '] + Join(ws[1..], ' ');
      assert Join(ws, ' ') == ws[0] + rest;
      WordEndSolid(ws[0], rest);
      assert (ws[0] + rest)[..|ws[0]|] == ws[0] && (ws[0] + rest)[|ws[0]|..] == rest;
      assert rest[1..] == Join(ws[1..], ' ');
      WordsJoined(ws[1..]);
    }
  }

  /** Only the plain star prints as a star. */
  lemma StarPrinted(f: Field)
    requires WellFormed(f)
    ensures Print(f) == "*" <==> f == ANY
  {
    var parts := seq(|f|, i requires 0 <= i < |f| => PrintPart(f[i]));
    PartSolid(f[0]);
    if |f| > 1 { assert |Print(f)| >= |parts[0]| + 1; }
    match f[0].span {
      case Star =>
      case Single(n) => DecimalLacks(n, '*');
      case Between(a, b) => DecimalLacks(a, '*');
    }
    PrintFirst(parts, ',');
    if f[0].step.Some? { SignedSolid(f[0].step.value); }
  }

  /** The matcher on the text of any expression is the declarative rule. */
  lemma MatchesRule(e: Expr, t: Moment)
    requires WellFormedExpr(e)
    ensures Matches(Join(Texts(e), ' '), t) == Some(Rule(e, t))
  {
    NoSpaces(e.minute);
    NoSpaces(e.hour);
    NoSpaces(e.dom);
    NoSpaces(e.month);
    NoSpaces(e.dow);
    WordsJoined(Texts(e));
    ParsePrinted(e.minute, 0, 59);
    ParsePrinted(e.hour, 0, 23);
    ParsePrinted(e.dom, 1, 31);
    ParsePrinted(e.month, 1, 12);
    ParsePrinted(e.dow, 0, 6);
    StarPrinted(e.dom);
    StarPrinted(e.dow);
  }

  /** `cron_matches`, parsing each field with the loops above. */
  method CronMatches(expr: string, t: Moment) returns (r: Option<bool>)
    ensures r == Matches(expr, t)
  {
    var w := Words(expr);
    if |w| != 5 { return None; }
    var minute := ParseField(w[0], 0, 59);
    if minute.None? { return None; }
    if t.minute !in minute.value { return Some(false); }
    var hour := ParseField(w[1], 0, 23);
    if hour.None? { return None; }
    if t.hour !in hour.value { return Some(false); }
    var month := ParseField(w[3], 1, 12);
    if month.None? { return None; }
    if t.month !in month.value { return Some(false); }
    var days := ParseField(w[2], 1, 31);
    if days.None? { return None; }
    var weekdays := ParseField(w[4], 0, 6);
    if weekdays.None? { return None; }
    var dayOk, weekdayOk := t.day in days.value, (t.weekday + 1) % 7 in weekdays.value;
    if w[2] != "*" && w[4] != "*" { return Some(dayOk || weekdayOk); }
    if w[2] != "*" { return Some(dayOk); }
    if w[4] != "*" { return Some(weekdayOk); }
    return Some(true);
  }
}
