/** The terminator construct `dsl::terminator(term).limit(...)` and the rules
    derived from it: `term(rule)`, `.try_`, `.opt`, `.list` and `.opt_list`,
    over a concrete grammar whose tokens are literals. */
module Terminator {
  import opened Events
  import opened Literal

  /** One element of a sequence rule: a literal token or a `position` rule. */
  datatype Step = Lit(text: string) | Pos

  /** A rule is a sequence of steps. A branch (`cond >> rest`) can be tried:
      its first literal is the condition that decides whether it is taken. */
  datatype Rule = Rule(steps: seq<Step>, branch: bool)

  predicate StartsWithLiteral(r: Rule) {
    |r.steps| > 0 && r.steps[0].Lit? && |r.steps[0].text| > 0
  }

  predicate IsBranch(r: Rule) {
    r.branch && StartsWithLiteral(r)
  }

  function First(r: Rule): string
    requires StartsWithLiteral(r)
  {
    r.steps[0].text
  }

  /** `dsl::terminator(lit >> position?)` with the limit set given by `.limit(...)`. */
  datatype Term = Term(lit: string, position: bool, limits: seq<string>)

  /** The terminator as a rule: its literal, then the optional position. */
  function TermRule(t: Term): (r: Rule)
    ensures r.branch && |r.steps| > 0 && r.steps[0] == Lit(t.lit)
    ensures forall i :: 0 < i < |r.steps| ==> r.steps[i] == Pos
  {
    Rule([Lit(t.lit)] + (if t.position then [Pos] else []), true)
  }

  /** `.limit(more...)`: adds tokens to the limit set. */
  function Limit(t: Term, more: seq<string>): (r: Term)
    ensures r.lit == t.lit && r.position == t.position
    ensures forall l :: l in r.limits <==> l in t.limits || l in more
  {
    t.(limits := t.limits + more)
  }

  /** `term(rule)`: the rule followed by the terminator. */
  function Apply(t: Term, r: Rule): (a: Rule)
    ensures !a.branch && |a.steps| == |r.steps| + |TermRule(t).steps|
    ensures a.steps[..|r.steps|] == r.steps && a.steps[|r.steps|..] == TermRule(t).steps
  {
    Rule(r.steps + TermRule(t).steps, false)
  }

  /** What a rule produced beyond its events: nothing, an absent optional,
      a present value, or an item count. */
  datatype Value = NoValue | Nullopt | Present | Count(n: nat)

  /** The result of running a rule from some position: whether it succeeded,
      where the reader ended, the whole event trace so far (every function
      below extends the trace it is given) and the value produced. */
  datatype Outcome = Outcome(ok: bool, pos: nat, trace: seq<Event>, value: Value)

  //=== tokens and sequences ===//

  /** Parsing a literal token: on success it is consumed and reported; on
      failure the error names the literal and the index of the first
      mismatch, the matched prefix is reported as an error token, and the
      reader is left after that prefix. */
  function TokenF(lit: string, s: string, p: nat, ev: seq<Event>): (o: Outcome)
    requires p <= |s|
    ensures o.ok == Matches(lit, s, p) && o.value == NoValue
    ensures o.pos == p + CommonPrefix(lit, s, p) && o.pos <= |s|
    ensures o.ok ==> o.pos == p + |lit| && o.trace == ev + [Token(lit)]
    ensures !o.ok ==> o.pos < p + |lit|
                      && o.trace == ev + [ExpectedLiteral(p, lit, o.pos - p)]
                                    + (if o.pos > p then [ErrorToken(s[p..o.pos])] else [])
  {
    var n := CommonPrefix(lit, s, p);
    if n == |lit| then Outcome(true, p + n, ev + [Token(lit)], NoValue)
    else
      var e := ev + [ExpectedLiteral(p, lit, n)];
      Outcome(false, p + n, if n > 0 then e + [ErrorToken(s[p..p + n])] else e, NoValue)
  }

  /** Parsing a sequence rule: each step in order, stopping at the first failure. */
  function StepsF(steps: seq<Step>, s: string, p: nat, ev: seq<Event>): (o: Outcome)
    requires p <= |s|
    ensures p <= o.pos <= |s| && o.value == NoValue
    ensures steps != [] && steps[0].Lit? && Matches(steps[0].text, s, p) ==> o.pos >= p + |steps[0].text|
    ensures steps != [] && steps[0].Lit? && !Matches(steps[0].text, s, p) ==> !o.ok
    decreases |steps|
  {
    if steps == [] then Outcome(true, p, ev, NoValue)
    else match steps[0]
      case Pos => StepsF(steps[1..], s, p, ev + [Position])
      case Lit(text) =>
        var t := TokenF(text, s, p, ev);
        if t.ok then StepsF(steps[1..], s, t.pos, t.trace) else t
  }

  /** One step of a sequence, seen from its `i`-th element. */
  lemma StepsAt(steps: seq<Step>, i: nat, s: string, p: nat, ev: seq<Event>)
    requires i < |steps| && p <= |s|
    ensures steps[i].Pos? ==> StepsF(steps[i..], s, p, ev) == StepsF(steps[i + 1..], s, p, ev + [Position])
    ensures steps[i].Lit? ==>
              var t := TokenF(steps[i].text, s, p, ev);
              StepsF(steps[i..], s, p, ev) == if t.ok then StepsF(steps[i + 1..], s, t.pos, t.trace) else t
  {
    assert steps[i..][1..] == steps[i + 1..];
  }

  //=== resynchronisation ===//

  /** Whether one of `lits` matches at `q`. */
  predicate AnyMatches(lits: seq<string>, s: string, q: nat)
    requires q <= |s|
    decreases |lits|
  {
    |lits| > 0 && (Matches(lits[0], s, q) || AnyMatches(lits[1..], s, q))
  }

  /** Recovery gives up at a limit token or at the end of the input. */
  predicate LimitAt(limits: seq<string>, s: string, q: nat)
    requires q <= |s|
  {
    q == |s| || AnyMatches(limits, s, q)
  }

  /** The first position at or after `q` where a stop token matches or a limit
      is reached: recovery skips exactly the units before it. */
  function Resync(stops: seq<string>, limits: seq<string>, s: string, q: nat): (r: nat)
    requires q <= |s|
    ensures q <= r <= |s|
    ensures AnyMatches(stops, s, r) || LimitAt(limits, s, r)
    ensures forall i :: q <= i < r ==> !AnyMatches(stops, s, i) && !LimitAt(limits, s, i)
    decreases |s| - q
  {
    if AnyMatches(stops, s, q) || LimitAt(limits, s, q) then q
    else Resync(stops, limits, s, q + 1)
  }

  lemma AnyMatchesOne(lit: string, s: string, q: nat)
    requires q <= |s|
    ensures AnyMatches([lit], s, q) == Matches(lit, s, q)
  {
    assert [lit][1..] == [];
  }

  lemma ResyncHere(stops: seq<string>, limits: seq<string>, s: string, q: nat)
    requires q <= |s| && (AnyMatches(stops, s, q) || LimitAt(limits, s, q))
    ensures Resync(stops, limits, s, q) == q
  {
  }

  lemma ResyncNext(stops: seq<string>, limits: seq<string>, s: string, q: nat)
    requires q <= |s| && !AnyMatches(stops, s, q) && !LimitAt(limits, s, q)
    ensures q < |s| && Resync(stops, limits, s, q) == Resync(stops, limits, s, q + 1)
  {
  }

  /** Skipping the units in `[p, q)`, one error token each, as the list loop
      reports them. */
  function Skip(s: string, p: nat, q: nat, ev: seq<Event>): (e: seq<Event>)
    requires p <= q <= |s|
    decreases q - p
  {
    if p == q then ev else Skip(s, p + 1, q, ev + [ErrorToken(s[p..p + 1])])
  }

  //=== try_ and opt ===//

  /** `recover(terminator).limit(...)`: skips units until the terminator, which
      it then parses, or until a limit or the end, where it cancels. The skipped
      units are reported as one error token. */
  function RecoverF(t: Term, s: string, p: nat, ev: seq<Event>): (o: Outcome)
    requires p <= |s|
    ensures p <= o.pos <= |s| && o.value == NoValue
  {
    var q := Resync([t.lit], t.limits, s, p);
    var e1 := ev + [Recovery];
    var e2 := if q > p then e1 + [ErrorToken(s[p..q])] else e1;
    if Matches(t.lit, s, q) then StepsF(TermRule(t).steps, s, q, e2 + [Finish])
    else Outcome(false, q, e2 + [Cancel], NoValue)
  }

  /** `.try_(rule)`: the rule, then the terminator without recovery; if the
      rule fails, recover up to and including the terminator. */
  function TryF(t: Term, body: Rule, s: string, p: nat, ev: seq<Event>): (o: Outcome)
    requires p <= |s|
    ensures p <= o.pos <= |s|
  {
    var b := StepsF(body.steps, s, p, ev);
    if b.ok then StepsF(TermRule(t).steps, s, b.pos, b.trace).(value := Present)
    else RecoverF(t, s, b.pos, b.trace)
  }

  /** `.opt(rule)`: the terminator alone gives an absent value; otherwise `.try_(rule)`. */
  function OptF(t: Term, body: Rule, s: string, p: nat, ev: seq<Event>): (o: Outcome)
    requires p <= |s|
    ensures p <= o.pos <= |s|
  {
    if Matches(t.lit, s, p) then StepsF(TermRule(t).steps, s, p, ev).(value := Nullopt)
    else TryF(t, body, s, p, ev)
  }

  //=== list and opt_list ===//

  /** The separator of a list: none, `sep(rule)` or `trailing_sep(rule)`. */
  datatype Separator = NoSep | Sep(rule: Rule) | TrailingSep(rule: Rule)

  /** `.list(item, sep)` of a terminator. */
  datatype List = List(term: Term, item: Rule, sep: Separator)

  const TrailingSeparatorMessage: string := "unexpected trailing separator"

  /** The item must consume input when it succeeds (otherwise the list loop
      would not terminate), and a separator must be a branch. */
  predicate ValidList(c: List) {
    StartsWithLiteral(c.item) && (!c.sep.NoSep? ==> IsBranch(c.sep.rule))
  }

  /** Where list recovery may stop: the terminator; then the separator if
      there is one, otherwise the item if it is a branch. */
  function ListStops(c: List): (stops: seq<string>)
    requires ValidList(c)
    ensures |stops| > 0 && stops[0] == c.term.lit
  {
    [c.term.lit]
    + (if !c.sep.NoSep? then [First(c.sep.rule)]
       else if IsBranch(c.item) then [First(c.item)] else [])
  }

  /** The states of the list loop. */
  datatype ListState = AtTerminator | AtSeparator | AtItem | AtRecovery

  /** The second component of the loop's termination measure: a state whose
      next token is known to match will consume input. */
  function Rank(c: List, s: string, st: ListState, p: nat): nat
    requires ValidList(c) && p <= |s|
  {
    match st
    case AtTerminator => 4
    case AtSeparator => if !c.sep.NoSep? && Matches(First(c.sep.rule), s, p) then 0 else 3
    case AtItem => if Matches(First(c.item), s, p) then 0 else 2
    case AtRecovery => 1
  }

  /** The rest of a list parse from state `st` at `p`, with `n` items so far. */
  function Resume(c: List, s: string, st: ListState, p: nat, n: nat, ev: seq<Event>): (o: Outcome)
    requires ValidList(c) && p <= |s|
    ensures p <= o.pos <= |s|
    ensures o.value.Count? && n <= o.value.n
    decreases |s| - p, Rank(c, s, st, p)
  {
    match st
    case AtTerminator =>
      if Matches(c.term.lit, s, p) then StepsF(TermRule(c.term).steps, s, p, ev).(value := Count(n))
      else Resume(c, s, AtSeparator, p, n, ev)
    case AtSeparator =>
      if c.sep.NoSep? then Resume(c, s, AtItem, p, n, ev)
      else
        var so := StepsF(c.sep.rule.steps, s, p, ev);
        if so.ok then
          if Matches(c.term.lit, s, so.pos) then
            var e := if c.sep.Sep? then so.trace + [Error(p, so.pos, TrailingSeparatorMessage)] else so.trace;
            StepsF(TermRule(c.term).steps, s, so.pos, e).(value := Count(n))
          else Resume(c, s, AtItem, so.pos, n, so.trace)
        else if so.pos == p && IsBranch(c.item) && Matches(First(c.item), s, p) then
          var io := StepsF(c.item.steps, s, p, so.trace);
          if io.ok then Resume(c, s, AtTerminator, io.pos, n + 1, io.trace)
          else Resume(c, s, AtRecovery, io.pos, n, io.trace)
        else Resume(c, s, AtRecovery, so.pos, n, so.trace)
    case AtItem =>
      var io := StepsF(c.item.steps, s, p, ev);
      if io.ok then Resume(c, s, AtTerminator, io.pos, n + 1, io.trace)
      else Resume(c, s, AtRecovery, io.pos, n, io.trace)
    case AtRecovery =>
      var q := Resync(ListStops(c), c.term.limits, s, p);
      var e := Skip(s, p, q, ev + [Recovery]);
      if Matches(c.term.lit, s, q) then
        StepsF(TermRule(c.term).steps, s, q, e + [Finish]).(value := Count(n))
      else if !c.sep.NoSep? && Matches(First(c.sep.rule), s, q) then
        Resume(c, s, AtSeparator, q, n, e + [Finish])
      else if c.sep.NoSep? && IsBranch(c.item) && Matches(First(c.item), s, q) then
        Resume(c, s, AtItem, q, n, e + [Finish])
      else Outcome(false, q, e + [Cancel], Count(n))
  }

  /** `.list(item, sep)`: the first item is mandatory. */
  function ListF(c: List, s: string, p: nat, ev: seq<Event>): (o: Outcome)
    requires ValidList(c) && p <= |s|
    ensures p <= o.pos <= |s| && o.value.Count?
  {
    Resume(c, s, AtItem, p, 0, ev)
  }

  /** `.opt_list(item, sep)`: the terminator alone gives an absent value. */
  function OptListF(c: List, s: string, p: nat, ev: seq<Event>): (o: Outcome)
    requires ValidList(c) && p <= |s|
    ensures p <= o.pos <= |s|
  {
    if Matches(c.term.lit, s, p) then StepsF(TermRule(c.term).steps, s, p, ev).(value := Nullopt)
    else ListF(c, s, p, ev)
  }

  //=== the test driver's verdict ===//

  datatype Status = Success | RecoveredError | FatalError

  datatype TestResult = TestResult(status: Status, value: Value, trace: seq<Event>)

  /** A parse that fails is fatal and its production is cancelled; one that
      succeeds after reporting errors is recovered. */
  function Verify(o: Outcome): (r: TestResult)
    ensures r.status == FatalError <==> !o.ok
    ensures r.status == Success <==> o.ok && ErrorCount(o.trace) == 0
    ensures r.trace == if o.ok then o.trace else o.trace + [Cancel]
  {
    var status := if !o.ok then FatalError else if ErrorCount(o.trace) > 0 then RecoveredError else Success;
    TestResult(status, o.value, if o.ok then o.trace else o.trace + [Cancel])
  }
}
