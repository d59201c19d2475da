/** General properties of the terminator rules, over every input: how
    sequences compose, what recovery reports and where it stops, that lists
    cancel only at a limit, and how the variants (`.opt` against `.try_`,
    `.opt_list` against `.list`, `sep` against `trailing_sep`) differ. */
module TerminatorProperties {
  import opened Events
  import opened Literal
  import opened Terminator

  //=== traces ===//

  /** `t` is `ev` followed by further events. */
  predicate Extends(t: seq<Event>, ev: seq<Event>) {
    |ev| <= |t| && t[..|ev|] == ev
  }

  lemma ExtendsTrans(a: seq<Event>, b: seq<Event>, c: seq<Event>)
    requires Extends(a, b) && Extends(b, c)
    ensures Extends(a, c)
  {
    assert a[..|c|] == a[..|b|][..|c|];
  }

  lemma ExtendsAppend(ev: seq<Event>, more: seq<Event>)
    ensures Extends(ev + more, ev)
  {
    assert (ev + more)[..|ev|] == ev;
  }

  /** The events a token sequence can report: no recovery, finish or cancel. */
  predicate Plain(e: Event) {
    e.Token? || e.ErrorToken? || e.ExpectedLiteral? || e.Position?
  }

  predicate PlainSince(t: seq<Event>, k: nat) {
    forall i :: k <= i < |t| ==> Plain(t[i])
  }

  //=== sequences ===//

  /** A sequence rule only appends to the trace, and only token events. */
  lemma {:induction false} StepsPlain(steps: seq<Step>, s: string, p: nat, ev: seq<Event>)
    requires p <= |s|
    ensures var o := StepsF(steps, s, p, ev);
            Extends(o.trace, ev) && PlainSince(o.trace, |ev|)
    decreases |steps|
  {
    var o := StepsF(steps, s, p, ev);
    if steps == [] {
    } else if steps[0].Pos? {
      StepsPlain(steps[1..], s, p, ev + [Position]);
      ExtendsAppend(ev, [Position]);
      ExtendsTrans(o.trace, ev + [Position], ev);
    } else {
      var t := TokenF(steps[0].text, s, p, ev);
      assert Extends(t.trace, ev) && PlainSince(t.trace, |ev|);
      if t.ok {
        StepsPlain(steps[1..], s, t.pos, t.trace);
        ExtendsTrans(o.trace, t.trace, ev);
      }
    }
  }

  /** Running `a + b` is running `a`, then `b` from where `a` ended if it succeeded. */
  lemma {:induction false} StepsAppend(a: seq<Step>, b: seq<Step>, s: string, p: nat, ev: seq<Event>)
    requires p <= |s|
    ensures StepsF(a + b, s, p, ev)
            == var o := StepsF(a, s, p, ev);
               if o.ok then StepsF(b, s, o.pos, o.trace) else o
    decreases |a|
  {
    if a == [] {
      assert a + b == b;
    } else {
      assert (a + b)[0] == a[0];
      assert (a + b)[1..] == a[1..] + b;
      match a[0]
      case Pos =>
        StepsAppend(a[1..], b, s, p, ev + [Position]);
      case Lit(text) =>
        var t := TokenF(text, s, p, ev);
        if t.ok {
          StepsAppend(a[1..], b, s, t.pos, t.trace);
        }
    }
  }

  /** `term(rule)` is the rule followed by the terminator. */
  lemma ApplyIsSequence(t: Term, r: Rule, s: string, p: nat, ev: seq<Event>)
    requires p <= |s|
    ensures StepsF(Apply(t, r).steps, s, p, ev)
            == var b := StepsF(r.steps, s, p, ev);
               if b.ok then StepsF(TermRule(t).steps, s, b.pos, b.trace) else b
  {
    StepsAppend(r.steps, TermRule(t).steps, s, p, ev);
  }

  /** The events of a parsed terminator: its token, then its position if it has one. */
  function TermEvents(t: Term): (e: seq<Event>)
    ensures |e| > 0 && e[0] == Token(t.lit) && PlainSince(e, 0)
  {
    [Token(t.lit)] + (if t.position then [Position] else [])
  }

  /** The terminator rule consumes its literal when it matches and fails as
      the literal's token does otherwise. */
  lemma TermSteps(t: Term, s: string, q: nat, ev: seq<Event>)
    requires q <= |s|
    ensures StepsF(TermRule(t).steps, s, q, ev)
            == if Matches(t.lit, s, q) then Outcome(true, q + |t.lit|, ev + TermEvents(t), NoValue)
               else TokenF(t.lit, s, q, ev)
  {
    var steps := TermRule(t).steps;
    StepsAt(steps, 0, s, q, ev);
    if Matches(t.lit, s, q) {
      var e := ev + [Token(t.lit)];
      if t.position {
        StepsAt(steps, 1, s, q + |t.lit|, e);
        assert steps[2..] == [];
        assert e + [Position] == ev + TermEvents(t);
      } else {
        assert steps[1..] == [];
      }
    }
  }

  //=== resynchronisation and skipping ===//

  lemma {:induction false} AnyMatchesAppend(a: seq<string>, b: seq<string>, s: string, q: nat)
    requires q <= |s|
    ensures AnyMatches(a + b, s, q) <==> AnyMatches(a, s, q) || AnyMatches(b, s, q)
    decreases |a|
  {
    if a == [] {
      assert a + b == b;
    } else {
      assert (a + b)[0] == a[0];
      assert (a + b)[1..] == a[1..] + b;
      AnyMatchesAppend(a[1..], b, s, q);
    }
  }

  /** `limit(a).limit(b)` is `limit(a, b)`. */
  lemma LimitsCompose(t: Term, a: seq<string>, b: seq<string>)
    ensures Limit(Limit(t, a), b) == Limit(t, a + b)
  {
    assert t.limits + a + b == t.limits + (a + b);
  }

  /** Recovery under `limit(a, b)` stops where a limit of `t`, of `a` or of `b` matches. */
  lemma LimitAtCompose(t: Term, a: seq<string>, b: seq<string>, s: string, q: nat)
    requires q <= |s|
    ensures LimitAt(t.limits + (a + b), s, q)
            <==> LimitAt(t.limits, s, q) || AnyMatches(a, s, q) || AnyMatches(b, s, q)
  {
    AnyMatchesAppend(t.limits, a + b, s, q);
    AnyMatchesAppend(a, b, s, q);
  }

  /** The list loop's skipping reports the units in `[p, q)` one error token each. */
  lemma {:induction false} SkipReportsUnits(s: string, p: nat, q: nat, ev: seq<Event>)
    requires p <= q <= |s|
    ensures var e := Skip(s, p, q, ev);
            |e| == |ev| + (q - p) && Extends(e, ev)
            && forall i :: |ev| <= i < |e| ==> e[i] == ErrorToken([s[p + (i - |ev|)]])
    decreases q - p
  {
    if p < q {
      var ev2 := ev + [ErrorToken(s[p..p + 1])];
      assert s[p..p + 1] == [s[p]];
      SkipReportsUnits(s, p + 1, q, ev2);
      ExtendsAppend(ev, [ErrorToken(s[p..p + 1])]);
      ExtendsTrans(Skip(s, p, q, ev), ev2, ev);
    }
  }

  //=== try_ and opt ===//

  /** Recovery skips to the first terminator, limit or end; it finishes and
      parses a terminator found there, and otherwise cancels without consuming
      the limit. The skipped units form one error token. */
  lemma RecoverSpec(t: Term, s: string, p: nat, ev: seq<Event>)
    requires p <= |s|
    ensures var o := RecoverF(t, s, p, ev);
            var q := Resync([t.lit], t.limits, s, p);
            var skipped := ev + [Recovery] + (if q > p then [ErrorToken(s[p..q])] else []);
            (forall i :: p <= i < q ==> !Matches(t.lit, s, i) && !LimitAt(t.limits, s, i))
            && (o.ok <==> Matches(t.lit, s, q))
            && (o.ok ==> o == Outcome(true, q + |t.lit|, skipped + [Finish] + TermEvents(t), NoValue))
            && (!o.ok ==> o == Outcome(false, q, skipped + [Cancel], NoValue) && LimitAt(t.limits, s, q))
  {
    var q := Resync([t.lit], t.limits, s, p);
    forall i | p <= i < q
      ensures !Matches(t.lit, s, i) && !LimitAt(t.limits, s, i)
    {
      AnyMatchesOne(t.lit, s, i);
    }
    AnyMatchesOne(t.lit, s, q);
    var e1 := ev + [Recovery];
    var e2 := if q > p then e1 + [ErrorToken(s[p..q])] else e1;
    TermSteps(t, s, q, e2 + [Finish]);
  }

  /** `.try_`: once the body succeeds there is no recovery, so a missing
      terminator is fatal even when it appears later; a failing body is
      followed by recovery. */
  lemma TryOutcome(t: Term, body: Rule, s: string, p: nat, ev: seq<Event>)
    requires p <= |s|
    ensures var b := StepsF(body.steps, s, p, ev);
            var o := TryF(t, body, s, p, ev);
            (b.ok ==> Extends(o.trace, ev) && PlainSince(o.trace, |ev|)
                      && (o.ok <==> Matches(t.lit, s, b.pos)) && o.value == Present)
            && (!b.ok ==> o == RecoverF(t, s, b.pos, b.trace) && Extends(o.trace, b.trace + [Recovery]))
  {
    var b := StepsF(body.steps, s, p, ev);
    StepsPlain(body.steps, s, p, ev);
    if b.ok {
      var o := StepsF(TermRule(t).steps, s, b.pos, b.trace);
      StepsPlain(TermRule(t).steps, s, b.pos, b.trace);
      ExtendsTrans(o.trace, b.trace, ev);
      assert PlainSince(o.trace, |ev|) by {
        forall i | |ev| <= i < |o.trace|
          ensures Plain(o.trace[i])
        {
          if i < |b.trace| {
            assert o.trace[i] == o.trace[..|b.trace|][i] == b.trace[i];
          }
        }
      }
      TermSteps(t, s, b.pos, b.trace);
    } else {
      RecoverSpec(t, s, b.pos, b.trace);
      var o := RecoverF(t, s, b.pos, b.trace);
      var q := Resync([t.lit], t.limits, s, b.pos);
      var e1 := b.trace + [Recovery];
      var rest := (if q > b.pos then [ErrorToken(s[b.pos..q])] else []) + (if o.ok then [Finish] + TermEvents(t) else [Cancel]);
      assert o.trace == e1 + rest;
      ExtendsAppend(e1, rest);
    }
  }

  /** The fatal case of `.try_`: the body succeeded, the terminator does not
      follow, and no recovery event is reported. */
  lemma TryMissingTerminatorIsFatal(t: Term, body: Rule, s: string, p: nat)
    requires p <= |s|
    requires var b := StepsF(body.steps, s, p, []); b.ok && !Matches(t.lit, s, b.pos)
    ensures var r := Verify(TryF(t, body, s, p, []));
            r.status == FatalError && Recovery !in r.trace && r.trace[|r.trace| - 1] == Cancel
  {
    TryOutcome(t, body, s, p, []);
    var o := TryF(t, body, s, p, []);
    var r := Verify(o);
    forall i | 0 <= i < |r.trace|
      ensures r.trace[i] != Recovery
    {
      if i < |o.trace| {
        assert r.trace[i] == o.trace[i] && Plain(o.trace[i]);
      }
    }
  }

  /** `.opt` on input that starts with the terminator: an absent value and no error. */
  lemma OptTerminatorFirst(t: Term, body: Rule, s: string, p: nat)
    requires p <= |s| && Matches(t.lit, s, p)
    ensures OptF(t, body, s, p, []) == Outcome(true, p + |t.lit|, TermEvents(t), Nullopt)
    ensures Verify(OptF(t, body, s, p, [])).status == Success
  {
    TermSteps(t, s, p, []);
    assert [] + TermEvents(t) == TermEvents(t);
    assert ErrorCount(TermEvents(t)) == 0 by {
      forall i | 0 <= i < |TermEvents(t)|
        ensures !IsError(TermEvents(t)[i])
      {
        assert Plain(TermEvents(t)[i]);
      }
    }
  }

  /** `.try_` on the same input, when the body's first literal differs at once:
      the missing body is reported, then recovery finishes at the terminator. */
  lemma TryTerminatorFirst(t: Term, body: Rule, s: string, p: nat)
    requires p <= |s| && Matches(t.lit, s, p)
    requires StartsWithLiteral(body) && CommonPrefix(First(body), s, p) == 0
    ensures TryF(t, body, s, p, [])
            == Outcome(true, p + |t.lit|,
                       [ExpectedLiteral(p, First(body), 0), Recovery, Finish] + TermEvents(t), NoValue)
    ensures Verify(TryF(t, body, s, p, [])).status == RecoveredError
  {
    StepsAt(body.steps, 0, s, p, []);
    assert body.steps[0..] == body.steps;
    var b := StepsF(body.steps, s, p, []);
    assert b == Outcome(false, p, [ExpectedLiteral(p, First(body), 0)], NoValue);
    AnyMatchesOne(t.lit, s, p);
    assert Resync([t.lit], t.limits, s, p) == p;
    RecoverSpec(t, s, p, b.trace);
    var tr := [ExpectedLiteral(p, First(body), 0)] + [Recovery] + [] + [Finish] + TermEvents(t);
    assert tr == [ExpectedLiteral(p, First(body), 0), Recovery, Finish] + TermEvents(t);
    assert IsError(tr[0]);
  }

  //=== list and opt_list ===//

  /** Which stop matched where recovery ended. */
  lemma ListStopsMatch(c: List, s: string, q: nat)
    requires ValidList(c) && q <= |s|
    ensures AnyMatches(ListStops(c), s, q)
            <==> Matches(c.term.lit, s, q)
                 || (!c.sep.NoSep? && Matches(First(c.sep.rule), s, q))
                 || (c.sep.NoSep? && IsBranch(c.item) && Matches(First(c.item), s, q))
  {
    var rest := if !c.sep.NoSep? then [First(c.sep.rule)]
                else if IsBranch(c.item) then [First(c.item)] else [];
    AnyMatchesAppend([c.term.lit], rest, s, q);
    AnyMatchesOne(c.term.lit, s, q);
    if rest != [] {
      AnyMatchesOne(rest[0], s, q);
    }
  }

  /** How a list parse may end: it succeeds having consumed the terminator
      just before its end position, or it cancels at a limit (or the end of
      the input), which it does not consume. */
  predicate EndsWell(c: List, s: string, o: Outcome)
    requires o.pos <= |s|
  {
    (o.ok ==> |c.term.lit| <= o.pos && s[o.pos - |c.term.lit|..o.pos] == c.term.lit)
    && (!o.ok ==> LimitAt(c.term.limits, s, o.pos) && !Matches(c.term.lit, s, o.pos)
                  && |o.trace| > 0 && o.trace[|o.trace| - 1] == Cancel)
  }

  lemma TerminatorEndsWell(c: List, s: string, q: nat, ev: seq<Event>, v: Value)
    requires q <= |s| && Matches(c.term.lit, s, q)
    ensures EndsWell(c, s, StepsF(TermRule(c.term).steps, s, q, ev).(value := v))
  {
    TermSteps(c.term, s, q, ev);
    MatchesIsPrefix(c.term.lit, s, q);
  }

  /** Every list parse, from every state, ends well. */
  lemma {:induction false} ResumeEnds(c: List, s: string, st: ListState, p: nat, n: nat, ev: seq<Event>)
    requires ValidList(c) && p <= |s|
    ensures EndsWell(c, s, Resume(c, s, st, p, n, ev))
    decreases |s| - p, Rank(c, s, st, p), 1
  {
    match st
    case AtTerminator =>
      if Matches(c.term.lit, s, p) {
        TerminatorEndsWell(c, s, p, ev, Count(n));
      } else {
        ResumeEnds(c, s, AtSeparator, p, n, ev);
      }
    case AtSeparator => SeparatorEnds(c, s, p, n, ev);
    case AtItem =>
      var io := StepsF(c.item.steps, s, p, ev);
      if io.ok {
        ResumeEnds(c, s, AtTerminator, io.pos, n + 1, io.trace);
      } else {
        ResumeEnds(c, s, AtRecovery, io.pos, n, io.trace);
      }
    case AtRecovery => RecoveryEnds(c, s, p, n, ev);
  }

  lemma {:induction false} SeparatorEnds(c: List, s: string, p: nat, n: nat, ev: seq<Event>)
    requires ValidList(c) && p <= |s|
    ensures EndsWell(c, s, Resume(c, s, AtSeparator, p, n, ev))
    decreases |s| - p, Rank(c, s, AtSeparator, p), 0
  {
    if c.sep.NoSep? {
      ResumeEnds(c, s, AtItem, p, n, ev);
    } else {
      var so := StepsF(c.sep.rule.steps, s, p, ev);
      if so.ok {
        if Matches(c.term.lit, s, so.pos) {
          var e := if c.sep.Sep? then so.trace + [Error(p, so.pos, TrailingSeparatorMessage)] else so.trace;
          TerminatorEndsWell(c, s, so.pos, e, Count(n));
        } else {
          ResumeEnds(c, s, AtItem, so.pos, n, so.trace);
        }
      } else if so.pos == p && IsBranch(c.item) && Matches(First(c.item), s, p) {
        var io := StepsF(c.item.steps, s, p, so.trace);
        if io.ok {
          ResumeEnds(c, s, AtTerminator, io.pos, n + 1, io.trace);
        } else {
          ResumeEnds(c, s, AtRecovery, io.pos, n, io.trace);
        }
      } else {
        ResumeEnds(c, s, AtRecovery, so.pos, n, so.trace);
      }
    }
  }

  lemma {:induction false} RecoveryEnds(c: List, s: string, p: nat, n: nat, ev: seq<Event>)
    requires ValidList(c) && p <= |s|
    ensures EndsWell(c, s, Resume(c, s, AtRecovery, p, n, ev))
    decreases |s| - p, Rank(c, s, AtRecovery, p), 0
  {
    var q := Resync(ListStops(c), c.term.limits, s, p);
    var e := Skip(s, p, q, ev + [Recovery]);
    if Matches(c.term.lit, s, q) {
      TerminatorEndsWell(c, s, q, e + [Finish], Count(n));
    } else if !c.sep.NoSep? && Matches(First(c.sep.rule), s, q) {
      ResumeEnds(c, s, AtSeparator, q, n, e + [Finish]);
    } else if c.sep.NoSep? && IsBranch(c.item) && Matches(First(c.item), s, q) {
      ResumeEnds(c, s, AtItem, q, n, e + [Finish]);
    } else {
      ListStopsMatch(c, s, q);
    }
  }

  /** Without a separator and with an item that is not a branch, recovery
      cannot resume the loop: it goes straight to the terminator (or cancels),
      so no item after the failure is counted. */
  lemma RuleListRecoveryEndsList(c: List, s: string, p: nat, n: nat, ev: seq<Event>)
    requires ValidList(c) && p <= |s| && c.sep.NoSep? && !IsBranch(c.item)
    ensures var o := Resume(c, s, AtRecovery, p, n, ev);
            var q := Resync([c.term.lit], c.term.limits, s, p);
            o.value == Count(n)
            && (o.ok <==> Matches(c.term.lit, s, q))
            && (o.ok ==> o.trace == Skip(s, p, q, ev + [Recovery]) + [Finish] + TermEvents(c.term))
  {
    assert ListStops(c) == [c.term.lit];
    var q := Resync([c.term.lit], c.term.limits, s, p);
    TermSteps(c.term, s, q, Skip(s, p, q, ev + [Recovery]) + [Finish]);
  }

  /** `.list` on input that starts with the terminator, when the item's first
      literal differs at once: the missing item is reported and recovery
      finishes at the terminator with no item. */
  lemma ListTerminatorFirst(c: List, s: string, p: nat)
    requires ValidList(c) && p <= |s| && Matches(c.term.lit, s, p)
    requires CommonPrefix(First(c.item), s, p) == 0
    ensures ListF(c, s, p, [])
            == Outcome(true, p + |c.term.lit|,
                       [ExpectedLiteral(p, First(c.item), 0), Recovery, Finish] + TermEvents(c.term), Count(0))
    ensures Verify(ListF(c, s, p, [])).status == RecoveredError
  {
    StepsAt(c.item.steps, 0, s, p, []);
    assert c.item.steps[0..] == c.item.steps;
    var io := StepsF(c.item.steps, s, p, []);
    assert io == Outcome(false, p, [ExpectedLiteral(p, First(c.item), 0)], NoValue);
    assert ListF(c, s, p, []) == Resume(c, s, AtRecovery, p, 0, io.trace);
    ListStopsMatch(c, s, p);
    assert Resync(ListStops(c), c.term.limits, s, p) == p;
    var e := Skip(s, p, p, io.trace + [Recovery]);
    assert e == [ExpectedLiteral(p, First(c.item), 0)] + [Recovery];
    TermSteps(c.term, s, p, e + [Finish]);
    var tr := e + [Finish] + TermEvents(c.term);
    assert Resume(c, s, AtRecovery, p, 0, io.trace) == Outcome(true, p + |c.term.lit|, tr, Count(0));
    assert tr == [ExpectedLiteral(p, First(c.item), 0), Recovery, Finish] + TermEvents(c.term);
    assert IsError(tr[0]);
  }

  /** `.opt_list` on the same input: an absent value and no error. */
  lemma OptListTerminatorFirst(c: List, s: string, p: nat)
    requires ValidList(c) && p <= |s| && Matches(c.term.lit, s, p)
    ensures OptListF(c, s, p, []) == Outcome(true, p + |c.term.lit|, TermEvents(c.term), Nullopt)
    ensures Verify(OptListF(c, s, p, [])).status == Success
  {
    TermSteps(c.term, s, p, []);
    assert [] + TermEvents(c.term) == TermEvents(c.term);
    assert ErrorCount(TermEvents(c.term)) == 0 by {
      forall i | 0 <= i < |TermEvents(c.term)|
        ensures !IsError(TermEvents(c.term)[i])
      {
        assert Plain(TermEvents(c.term)[i]);
      }
    }
  }

  /** A separator directly followed by the terminator: with `sep` it is reported
      as an error spanning the separator, with `trailing_sep` it is accepted;
      both keep the items parsed so far and consume the terminator. */
  lemma TrailingSeparator(term: Term, item: Rule, r: Rule, s: string, p: nat, n: nat, ev: seq<Event>)
    requires ValidList(List(term, item, Sep(r))) && p <= |s|
    requires var so := StepsF(r.steps, s, p, ev); so.ok && Matches(term.lit, s, so.pos)
    ensures var so := StepsF(r.steps, s, p, ev);
            Resume(List(term, item, Sep(r)), s, AtSeparator, p, n, ev)
            == Outcome(true, so.pos + |term.lit|,
                       so.trace + [Error(p, so.pos, TrailingSeparatorMessage)] + TermEvents(term), Count(n))
    ensures var so := StepsF(r.steps, s, p, ev);
            Resume(List(term, item, TrailingSep(r)), s, AtSeparator, p, n, ev)
            == Outcome(true, so.pos + |term.lit|, so.trace + TermEvents(term), Count(n))
  {
    var so := StepsF(r.steps, s, p, ev);
    TermSteps(term, s, so.pos, so.trace + [Error(p, so.pos, TrailingSeparatorMessage)]);
    TermSteps(term, s, so.pos, so.trace);
  }
}
