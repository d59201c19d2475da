/** The scenarios of the terminator's test file, each proved as a lemma about
    the specification functions: status, value and event trace, including
    the production-level `cancel` the test driver adds to a failed parse.
    Every scenario is proved as a chain of small steps, one per state of the
    parse, each resting on the step after it. */
module TerminatorScenarios {
  import opened Events
  import opened Literal
  import opened Terminator

  /** `dsl::terminator(LEXY_LIT("!!!") >> dsl::position).limit(dsl::lit_c<';'>)`. */
  const TestTerm := Term("!!!", true, [LitC(';')])
  /** The body of `.try_`: `LEXY_LIT("abc") + dsl::position`. */
  const TryBody := Rule([Lit("abc"), Pos], false)
  /** The body of `.opt`: `dsl::capture(LEXY_LIT("abc"))`. */
  const OptBody := Rule([Lit("abc")], false)
  /** `LEXY_LIT("ab") >> LEXY_LIT("c")`. */
  const BranchItem := Rule([Lit("ab"), Lit("c")], true)
  /** `LEXY_LIT("ab") + LEXY_LIT("c")`. */
  const RuleItem := Rule([Lit("ab"), Lit("c")], false)
  /** `dsl::lit_c<','> >> dsl::lit_c<','>`. */
  const DoubleComma := Rule([Lit(LitC(',')), Lit(LitC(','))], true)
  /** `dsl::lit_c<','>`. */
  const Comma := Rule([Lit(LitC(','))], true)

  const BranchList := List(TestTerm, BranchItem, NoSep)
  const RuleList := List(TestTerm, RuleItem, NoSep)
  const BranchSepList := List(TestTerm, BranchItem, Sep(DoubleComma))
  const RuleSepList := List(TestTerm, RuleItem, Sep(DoubleComma))
  const BranchTrailingList := List(TestTerm, BranchItem, TrailingSep(DoubleComma))
  const CommaList := List(TestTerm, BranchItem, Sep(Comma))

  //=== the test driver's verdict ===//

  lemma VerifyRecovered(o: Outcome, k: nat)
    requires o.ok && k < |o.trace| && IsError(o.trace[k])
    ensures Verify(o) == TestResult(RecoveredError, o.value, o.trace)
  {
  }

  lemma VerifyFatal(o: Outcome, trace: seq<Event>)
    requires !o.ok && trace == o.trace + [Cancel]
    ensures Verify(o) == TestResult(FatalError, o.value, trace)
  {
  }

  lemma VerifySuccess(o: Outcome)
    requires o.ok && ErrorCount(o.trace) == 0
    ensures Verify(o) == TestResult(Success, o.value, o.trace)
  {
  }

  //=== steps of a concrete parse ===//

  lemma Hit(lit: string, s: string, p: nat)
    requires p + |lit| <= |s| && s[p..p + |lit|] == lit
    ensures Matches(lit, s, p)
  {
    MatchesIsPrefix(lit, s, p);
  }

  lemma Miss(lit: string, s: string, p: nat, k: nat, prefix: string)
    requires k < |lit| && p + k <= |s| && s[p..p + k] == prefix && lit[..k] == prefix
    requires p + k == |s| || s[p + k] != lit[k]
    ensures !Matches(lit, s, p) && CommonPrefix(lit, s, p) == k
  {
    PrefixCharacterizes(lit, s, p, k);
  }

  lemma Any1(a: string, s: string, q: nat)
    requires q <= |s|
    ensures AnyMatches([a], s, q) == Matches(a, s, q)
  {
    AnyMatchesOne(a, s, q);
  }

  lemma Any2(a: string, b: string, s: string, q: nat)
    requires q <= |s|
    ensures AnyMatches([a, b], s, q) == (Matches(a, s, q) || Matches(b, s, q))
  {
    assert [a, b][1..] == [b];
    AnyMatchesOne(b, s, q);
  }

  lemma LitHit(steps: seq<Step>, i: nat, text: string, s: string, p: nat, ev: seq<Event>, ev2: seq<Event>)
    requires i < |steps| && steps[i] == Lit(text) && p + |text| <= |s|
    requires s[p..p + |text|] == text && ev2 == ev + [Token(text)]
    ensures StepsF(steps[i..], s, p, ev) == StepsF(steps[i + 1..], s, p + |text|, ev2)
  {
    Hit(text, s, p);
    StepsAt(steps, i, s, p, ev);
  }

  lemma LitMiss(steps: seq<Step>, i: nat, text: string, s: string, p: nat, k: nat, prefix: string, ev: seq<Event>, ev2: seq<Event>)
    requires i < |steps| && steps[i] == Lit(text) && k < |text| && p + k <= |s|
    requires s[p..p + k] == prefix && text[..k] == prefix
    requires p + k == |s| || s[p + k] != text[k]
    requires ev2 == ev + [ExpectedLiteral(p, text, k)] + (if k > 0 then [ErrorToken(prefix)] else [])
    ensures StepsF(steps[i..], s, p, ev) == Outcome(false, p + k, ev2, NoValue)
  {
    Miss(text, s, p, k, prefix);
    StepsAt(steps, i, s, p, ev);
  }

  lemma PosStep(steps: seq<Step>, i: nat, s: string, p: nat, ev: seq<Event>, ev2: seq<Event>)
    requires i < |steps| && steps[i].Pos? && p <= |s| && ev2 == ev + [Position]
    ensures StepsF(steps[i..], s, p, ev) == StepsF(steps[i + 1..], s, p, ev2)
  {
    StepsAt(steps, i, s, p, ev);
  }

  /** At a separator position: the separator failed without consuming, and the
      branch item that can start there is parsed in its place. */
  lemma SepMissItem(c: List, s: string, p: nat, n: nat, ev: seq<Event>, so: Outcome, io: Outcome)
    requires ValidList(c) && p <= |s| && !c.sep.NoSep?
    requires StepsF(c.sep.rule.steps, s, p, ev) == so && !so.ok && so.pos == p
    requires IsBranch(c.item) && Matches(First(c.item), s, p)
    requires StepsF(c.item.steps, s, p, so.trace) == io
    ensures Resume(c, s, AtSeparator, p, n, ev)
            == if io.ok then Resume(c, s, AtTerminator, io.pos, n + 1, io.trace)
               else Resume(c, s, AtRecovery, io.pos, n, io.trace)
  {
  }

  /** At a separator position: the separator matched and the terminator follows. */
  lemma SepThenTerm(c: List, s: string, p: nat, n: nat, ev: seq<Event>, so: Outcome, e: seq<Event>, to: Outcome)
    requires ValidList(c) && p <= |s| && !c.sep.NoSep?
    requires StepsF(c.sep.rule.steps, s, p, ev) == so && so.ok && Matches(c.term.lit, s, so.pos)
    requires e == if c.sep.Sep? then so.trace + [Error(p, so.pos, TrailingSeparatorMessage)] else so.trace
    requires StepsF(TermRule(c.term).steps, s, so.pos, e) == to
    ensures Resume(c, s, AtSeparator, p, n, ev) == to.(value := Count(n))
  {
  }

  lemma StepsDone(steps: seq<Step>, s: string, p: nat, ev: seq<Event>)
    requires p <= |s|
    ensures StepsF(steps[|steps|..], s, p, ev) == Outcome(true, p, ev, NoValue)
  {
    assert steps[|steps|..] == [];
  }

  lemma StepsWhole(steps: seq<Step>, s: string, p: nat, ev: seq<Event>)
    requires p <= |s|
    ensures StepsF(steps, s, p, ev) == StepsF(steps[0..], s, p, ev)
  {
    assert steps[0..] == steps;
  }

  lemma SkipStep(s: string, p: nat, q: nat, ev: seq<Event>, ev2: seq<Event>)
    requires p < q <= |s| && ev2 == ev + [ErrorToken([s[p]])]
    ensures Skip(s, p, q, ev) == Skip(s, p + 1, q, ev2)
  {
    assert s[p..p + 1] == [s[p]];
  }

  lemma SkipDone(s: string, q: nat, ev: seq<Event>)
    requires q <= |s|
    ensures Skip(s, q, q, ev) == ev
  {
  }

  //=== the scenarios ===//

  /** `.try_` on "": the body fails at once, recovery reaches the end and cancels. */
  lemma TryEmpty()
    ensures Verify(TryF(TestTerm, TryBody, "", 0, [])) == TestResult(FatalError, NoValue, [ExpectedLiteral(0, "abc", 0), Recovery, Cancel, Cancel])
  {
    TryEmptyStep0();
    TryEmptyVerdict();
  }

  lemma TryEmptyStep0()
    ensures TryF(TestTerm, TryBody, "", 0, []) == Outcome(false, 0, [ExpectedLiteral(0, "abc", 0), Recovery, Cancel], NoValue)
  {
    var s := "";
    TryEmptyStep0Part0(s);
    TryEmptyStep1();
  }

  lemma TryEmptyStep0Part0(s: string)
    requires s == ""
    ensures StepsF(TryBody.steps, s, 0, []) == Outcome(false, 0, [ExpectedLiteral(0, "abc", 0)], NoValue)
  {
    StepsWhole(TryBody.steps, s, 0, []);
    assert s[0..0] == "";
    assert "abc"[..0] == "";
    LitMiss(TryBody.steps, 0, "abc", s, 0, 0, "", [], [ExpectedLiteral(0, "abc", 0)]);
  }

  lemma TryEmptyStep1()
    ensures RecoverF(TestTerm, "", 0, [ExpectedLiteral(0, "abc", 0)]) == Outcome(false, 0, [ExpectedLiteral(0, "abc", 0), Recovery, Cancel], NoValue)
  {
    var s := "";
    AnyMatchesOne(TestTerm.lit, s, 0);
    assert s[0..0] == "";
    assert "!!!"[..0] == "";
    Miss("!!!", s, 0, 0, "");
    Any1("!!!", s, 0);
    ResyncHere([TestTerm.lit], TestTerm.limits, s, 0);
  }

  lemma TryEmptyVerdict()
    ensures Verify(Outcome(false, 0, [ExpectedLiteral(0, "abc", 0), Recovery, Cancel], NoValue)) == TestResult(FatalError, NoValue, [ExpectedLiteral(0, "abc", 0), Recovery, Cancel, Cancel])
  {
    VerifyFatal(Outcome(false, 0, [ExpectedLiteral(0, "abc", 0), Recovery, Cancel], NoValue), [ExpectedLiteral(0, "abc", 0), Recovery, Cancel, Cancel]);
  }

  /** `.try_` on "!!!": the body fails, recovery finishes at the terminator and consumes it. */
  lemma TryTerminatorOnly()
    ensures Verify(TryF(TestTerm, TryBody, "!!!", 0, [])) == TestResult(RecoveredError, NoValue, [ExpectedLiteral(0, "abc", 0), Recovery, Finish, Token("!!!"), Position])
  {
    TryTerminatorOnlyStep0();
    TryTerminatorOnlyVerdict();
  }

  lemma TryTerminatorOnlyStep0()
    ensures TryF(TestTerm, TryBody, "!!!", 0, []) == Outcome(true, 3, [ExpectedLiteral(0, "abc", 0), Recovery, Finish, Token("!!!"), Position], NoValue)
  {
    var s := "!!!";
    TryTerminatorOnlyStep0Part0(s);
    TryTerminatorOnlyStep1();
  }

  lemma TryTerminatorOnlyStep0Part0(s: string)
    requires s == "!!!"
    ensures StepsF(TryBody.steps, s, 0, []) == Outcome(false, 0, [ExpectedLiteral(0, "abc", 0)], NoValue)
  {
    StepsWhole(TryBody.steps, s, 0, []);
    assert s[0..0] == "";
    assert "abc"[..0] == "";
    LitMiss(TryBody.steps, 0, "abc", s, 0, 0, "", [], [ExpectedLiteral(0, "abc", 0)]);
  }

  lemma TryTerminatorOnlyStep1()
    ensures RecoverF(TestTerm, "!!!", 0, [ExpectedLiteral(0, "abc", 0)]) == Outcome(true, 3, [ExpectedLiteral(0, "abc", 0), Recovery, Finish, Token("!!!"), Position], NoValue)
  {
    var s := "!!!";
    AnyMatchesOne(TestTerm.lit, s, 0);
    assert s[0..3] == "!!!";
    Hit("!!!", s, 0);
    Any1("!!!", s, 0);
    assert s[0..0] == "";
    assert ";"[..0] == "";
    Miss(";", s, 0, 0, "");
    Any1(";", s, 0);
    ResyncHere([TestTerm.lit], TestTerm.limits, s, 0);
    TryTerminatorOnlyStep1Part0(s);
  }

  lemma TryTerminatorOnlyStep1Part0(s: string)
    requires s == "!!!"
    ensures StepsF(TermRule(TestTerm).steps, s, 0, [ExpectedLiteral(0, "abc", 0)] + [Recovery] + [Finish]) == Outcome(true, 3, [ExpectedLiteral(0, "abc", 0), Recovery, Finish, Token("!!!"), Position], NoValue)
  {
    StepsWhole(TermRule(TestTerm).steps, s, 0, [ExpectedLiteral(0, "abc", 0)] + [Recovery] + [Finish]);
    assert s[0..3] == "!!!";
    LitHit(TermRule(TestTerm).steps, 0, "!!!", s, 0, [ExpectedLiteral(0, "abc", 0)] + [Recovery] + [Finish], [ExpectedLiteral(0, "abc", 0), Recovery, Finish, Token("!!!")]);
    PosStep(TermRule(TestTerm).steps, 1, s, 3, [ExpectedLiteral(0, "abc", 0), Recovery, Finish, Token("!!!")], [ExpectedLiteral(0, "abc", 0), Recovery, Finish, Token("!!!"), Position]);
    StepsDone(TermRule(TestTerm).steps, s, 3, [ExpectedLiteral(0, "abc", 0), Recovery, Finish, Token("!!!"), Position]);
  }

  lemma TryTerminatorOnlyVerdict()
    ensures Verify(Outcome(true, 3, [ExpectedLiteral(0, "abc", 0), Recovery, Finish, Token("!!!"), Position], NoValue)) == TestResult(RecoveredError, NoValue, [ExpectedLiteral(0, "abc", 0), Recovery, Finish, Token("!!!"), Position])
  {
    VerifyRecovered(Outcome(true, 3, [ExpectedLiteral(0, "abc", 0), Recovery, Finish, Token("!!!"), Position], NoValue), 0);
  }

  /** `.try_` on "abc!!!": body, then terminator. */
  lemma TrySuccess()
    ensures Verify(TryF(TestTerm, TryBody, "abc!!!", 0, [])) == TestResult(Success, Present, [Token("abc"), Position, Token("!!!"), Position])
  {
    TrySuccessStep0();
    TrySuccessVerdict();
  }

  lemma TrySuccessStep0()
    ensures TryF(TestTerm, TryBody, "abc!!!", 0, []) == Outcome(true, 6, [Token("abc"), Position, Token("!!!"), Position], Present)
  {
    var s := "abc!!!";
    TrySuccessStep0Part0(s);
    TrySuccessStep0Part1(s);
  }

  lemma TrySuccessStep0Part0(s: string)
    requires s == "abc!!!"
    ensures StepsF(TryBody.steps, s, 0, []) == Outcome(true, 3, [Token("abc"), Position], NoValue)
  {
    StepsWhole(TryBody.steps, s, 0, []);
    assert s[0..3] == "abc";
    LitHit(TryBody.steps, 0, "abc", s, 0, [], [Token("abc")]);
    PosStep(TryBody.steps, 1, s, 3, [Token("abc")], [Token("abc"), Position]);
    StepsDone(TryBody.steps, s, 3, [Token("abc"), Position]);
  }

  lemma TrySuccessStep0Part1(s: string)
    requires s == "abc!!!"
    ensures StepsF(TermRule(TestTerm).steps, s, 3, [Token("abc"), Position]) == Outcome(true, 6, [Token("abc"), Position, Token("!!!"), Position], NoValue)
  {
    StepsWhole(TermRule(TestTerm).steps, s, 3, [Token("abc"), Position]);
    assert s[3..6] == "!!!";
    LitHit(TermRule(TestTerm).steps, 0, "!!!", s, 3, [Token("abc"), Position], [Token("abc"), Position, Token("!!!")]);
    PosStep(TermRule(TestTerm).steps, 1, s, 6, [Token("abc"), Position, Token("!!!")], [Token("abc"), Position, Token("!!!"), Position]);
    StepsDone(TermRule(TestTerm).steps, s, 6, [Token("abc"), Position, Token("!!!"), Position]);
  }

  lemma TrySuccessVerdict()
    ensures Verify(Outcome(true, 6, [Token("abc"), Position, Token("!!!"), Position], Present)) == TestResult(Success, Present, [Token("abc"), Position, Token("!!!"), Position])
  {
    VerifySuccess(Outcome(true, 6, [Token("abc"), Position, Token("!!!"), Position], Present));
  }

  /** `.try_` on "ab!!!": the matched prefix of the body becomes an error token, then recovery finishes at the terminator. */
  lemma TryPartialBody()
    ensures Verify(TryF(TestTerm, TryBody, "ab!!!", 0, [])) == TestResult(RecoveredError, NoValue, [ExpectedLiteral(0, "abc", 2), ErrorToken("ab"), Recovery, Finish, Token("!!!"), Position])
  {
    TryPartialBodyStep0();
    TryPartialBodyVerdict();
  }

  lemma TryPartialBodyStep0()
    ensures TryF(TestTerm, TryBody, "ab!!!", 0, []) == Outcome(true, 5, [ExpectedLiteral(0, "abc", 2), ErrorToken("ab"), Recovery, Finish, Token("!!!"), Position], NoValue)
  {
    var s := "ab!!!";
    TryPartialBodyStep0Part0(s);
    TryPartialBodyStep1();
  }

  lemma TryPartialBodyStep0Part0(s: string)
    requires s == "ab!!!"
    ensures StepsF(TryBody.steps, s, 0, []) == Outcome(false, 2, [ExpectedLiteral(0, "abc", 2), ErrorToken("ab")], NoValue)
  {
    StepsWhole(TryBody.steps, s, 0, []);
    assert s[0..2] == "ab";
    assert "abc"[..2] == "ab";
    LitMiss(TryBody.steps, 0, "abc", s, 0, 2, "ab", [], [ExpectedLiteral(0, "abc", 2), ErrorToken("ab")]);
  }

  lemma TryPartialBodyStep1()
    ensures RecoverF(TestTerm, "ab!!!", 2, [ExpectedLiteral(0, "abc", 2), ErrorToken("ab")]) == Outcome(true, 5, [ExpectedLiteral(0, "abc", 2), ErrorToken("ab"), Recovery, Finish, Token("!!!"), Position], NoValue)
  {
    var s := "ab!!!";
    AnyMatchesOne(TestTerm.lit, s, 2);
    assert s[2..5] == "!!!";
    Hit("!!!", s, 2);
    Any1("!!!", s, 2);
    assert s[2..2] == "";
    assert ";"[..0] == "";
    Miss(";", s, 2, 0, "");
    Any1(";", s, 2);
    ResyncHere([TestTerm.lit], TestTerm.limits, s, 2);
    TryPartialBodyStep1Part0(s);
  }

  lemma TryPartialBodyStep1Part0(s: string)
    requires s == "ab!!!"
    ensures StepsF(TermRule(TestTerm).steps, s, 2, [ExpectedLiteral(0, "abc", 2), ErrorToken("ab")] + [Recovery] + [Finish]) == Outcome(true, 5, [ExpectedLiteral(0, "abc", 2), ErrorToken("ab"), Recovery, Finish, Token("!!!"), Position], NoValue)
  {
    StepsWhole(TermRule(TestTerm).steps, s, 2, [ExpectedLiteral(0, "abc", 2), ErrorToken("ab")] + [Recovery] + [Finish]);
    assert s[2..5] == "!!!";
    LitHit(TermRule(TestTerm).steps, 0, "!!!", s, 2, [ExpectedLiteral(0, "abc", 2), ErrorToken("ab")] + [Recovery] + [Finish], [ExpectedLiteral(0, "abc", 2), ErrorToken("ab"), Recovery, Finish, Token("!!!")]);
    PosStep(TermRule(TestTerm).steps, 1, s, 5, [ExpectedLiteral(0, "abc", 2), ErrorToken("ab"), Recovery, Finish, Token("!!!")], [ExpectedLiteral(0, "abc", 2), ErrorToken("ab"), Recovery, Finish, Token("!!!"), Position]);
    StepsDone(TermRule(TestTerm).steps, s, 5, [ExpectedLiteral(0, "abc", 2), ErrorToken("ab"), Recovery, Finish, Token("!!!"), Position]);
  }

  lemma TryPartialBodyVerdict()
    ensures Verify(Outcome(true, 5, [ExpectedLiteral(0, "abc", 2), ErrorToken("ab"), Recovery, Finish, Token("!!!"), Position], NoValue)) == TestResult(RecoveredError, NoValue, [ExpectedLiteral(0, "abc", 2), ErrorToken("ab"), Recovery, Finish, Token("!!!"), Position])
  {
    VerifyRecovered(Outcome(true, 5, [ExpectedLiteral(0, "abc", 2), ErrorToken("ab"), Recovery, Finish, Token("!!!"), Position], NoValue), 0);
  }

  /** `.try_` on "abc": the body succeeds, the terminator is missing, no recovery. */
  lemma TryUnterminated()
    ensures Verify(TryF(TestTerm, TryBody, "abc", 0, [])) == TestResult(FatalError, Present, [Token("abc"), Position, ExpectedLiteral(3, "!!!", 0), Cancel])
  {
    TryUnterminatedStep0();
    TryUnterminatedVerdict();
  }

  lemma TryUnterminatedStep0()
    ensures TryF(TestTerm, TryBody, "abc", 0, []) == Outcome(false, 3, [Token("abc"), Position, ExpectedLiteral(3, "!!!", 0)], Present)
  {
    var s := "abc";
    TryUnterminatedStep0Part0(s);
    TryUnterminatedStep0Part1(s);
  }

  lemma TryUnterminatedStep0Part0(s: string)
    requires s == "abc"
    ensures StepsF(TryBody.steps, s, 0, []) == Outcome(true, 3, [Token("abc"), Position], NoValue)
  {
    StepsWhole(TryBody.steps, s, 0, []);
    assert s[0..3] == "abc";
    LitHit(TryBody.steps, 0, "abc", s, 0, [], [Token("abc")]);
    PosStep(TryBody.steps, 1, s, 3, [Token("abc")], [Token("abc"), Position]);
    StepsDone(TryBody.steps, s, 3, [Token("abc"), Position]);
  }

  lemma TryUnterminatedStep0Part1(s: string)
    requires s == "abc"
    ensures StepsF(TermRule(TestTerm).steps, s, 3, [Token("abc"), Position]) == Outcome(false, 3, [Token("abc"), Position, ExpectedLiteral(3, "!!!", 0)], NoValue)
  {
    StepsWhole(TermRule(TestTerm).steps, s, 3, [Token("abc"), Position]);
    assert s[3..3] == "";
    assert "!!!"[..0] == "";
    LitMiss(TermRule(TestTerm).steps, 0, "!!!", s, 3, 0, "", [Token("abc"), Position], [Token("abc"), Position, ExpectedLiteral(3, "!!!", 0)]);
  }

  lemma TryUnterminatedVerdict()
    ensures Verify(Outcome(false, 3, [Token("abc"), Position, ExpectedLiteral(3, "!!!", 0)], Present)) == TestResult(FatalError, Present, [Token("abc"), Position, ExpectedLiteral(3, "!!!", 0), Cancel])
  {
    VerifyFatal(Outcome(false, 3, [Token("abc"), Position, ExpectedLiteral(3, "!!!", 0)], Present), [Token("abc"), Position, ExpectedLiteral(3, "!!!", 0), Cancel]);
  }

  /** `.try_` on "abc!": the partial terminator becomes an error token, no recovery. */
  lemma TryPartialTerminator()
    ensures Verify(TryF(TestTerm, TryBody, "abc!", 0, [])) == TestResult(FatalError, Present, [Token("abc"), Position, ExpectedLiteral(3, "!!!", 1), ErrorToken("!"), Cancel])
  {
    TryPartialTerminatorStep0();
    TryPartialTerminatorVerdict();
  }

  lemma TryPartialTerminatorStep0()
    ensures TryF(TestTerm, TryBody, "abc!", 0, []) == Outcome(false, 4, [Token("abc"), Position, ExpectedLiteral(3, "!!!", 1), ErrorToken("!")], Present)
  {
    var s := "abc!";
    TryPartialTerminatorStep0Part0(s);
    TryPartialTerminatorStep0Part1(s);
  }

  lemma TryPartialTerminatorStep0Part0(s: string)
    requires s == "abc!"
    ensures StepsF(TryBody.steps, s, 0, []) == Outcome(true, 3, [Token("abc"), Position], NoValue)
  {
    StepsWhole(TryBody.steps, s, 0, []);
    assert s[0..3] == "abc";
    LitHit(TryBody.steps, 0, "abc", s, 0, [], [Token("abc")]);
    PosStep(TryBody.steps, 1, s, 3, [Token("abc")], [Token("abc"), Position]);
    StepsDone(TryBody.steps, s, 3, [Token("abc"), Position]);
  }

  lemma TryPartialTerminatorStep0Part1(s: string)
    requires s == "abc!"
    ensures StepsF(TermRule(TestTerm).steps, s, 3, [Token("abc"), Position]) == Outcome(false, 4, [Token("abc"), Position, ExpectedLiteral(3, "!!!", 1), ErrorToken("!")], NoValue)
  {
    StepsWhole(TermRule(TestTerm).steps, s, 3, [Token("abc"), Position]);
    assert s[3..4] == "!";
    assert "!!!"[..1] == "!";
    LitMiss(TermRule(TestTerm).steps, 0, "!!!", s, 3, 1, "!", [Token("abc"), Position], [Token("abc"), Position, ExpectedLiteral(3, "!!!", 1), ErrorToken("!")]);
  }

  lemma TryPartialTerminatorVerdict()
    ensures Verify(Outcome(false, 4, [Token("abc"), Position, ExpectedLiteral(3, "!!!", 1), ErrorToken("!")], Present)) == TestResult(FatalError, Present, [Token("abc"), Position, ExpectedLiteral(3, "!!!", 1), ErrorToken("!"), Cancel])
  {
    VerifyFatal(Outcome(false, 4, [Token("abc"), Position, ExpectedLiteral(3, "!!!", 1), ErrorToken("!")], Present), [Token("abc"), Position, ExpectedLiteral(3, "!!!", 1), ErrorToken("!"), Cancel]);
  }

  /** `.try_` on "abc???": fatal, no recovery. */
  lemma TryOtherTerminator()
    ensures Verify(TryF(TestTerm, TryBody, "abc???", 0, [])) == TestResult(FatalError, Present, [Token("abc"), Position, ExpectedLiteral(3, "!!!", 0), Cancel])
  {
    TryOtherTerminatorStep0();
    TryOtherTerminatorVerdict();
  }

  lemma TryOtherTerminatorStep0()
    ensures TryF(TestTerm, TryBody, "abc???", 0, []) == Outcome(false, 3, [Token("abc"), Position, ExpectedLiteral(3, "!!!", 0)], Present)
  {
    var s := "abc???";
    TryOtherTerminatorStep0Part0(s);
    TryOtherTerminatorStep0Part1(s);
  }

  lemma TryOtherTerminatorStep0Part0(s: string)
    requires s == "abc???"
    ensures StepsF(TryBody.steps, s, 0, []) == Outcome(true, 3, [Token("abc"), Position], NoValue)
  {
    StepsWhole(TryBody.steps, s, 0, []);
    assert s[0..3] == "abc";
    LitHit(TryBody.steps, 0, "abc", s, 0, [], [Token("abc")]);
    PosStep(TryBody.steps, 1, s, 3, [Token("abc")], [Token("abc"), Position]);
    StepsDone(TryBody.steps, s, 3, [Token("abc"), Position]);
  }

  lemma TryOtherTerminatorStep0Part1(s: string)
    requires s == "abc???"
    ensures StepsF(TermRule(TestTerm).steps, s, 3, [Token("abc"), Position]) == Outcome(false, 3, [Token("abc"), Position, ExpectedLiteral(3, "!!!", 0)], NoValue)
  {
    StepsWhole(TermRule(TestTerm).steps, s, 3, [Token("abc"), Position]);
    assert s[3..3] == "";
    assert "!!!"[..0] == "";
    LitMiss(TermRule(TestTerm).steps, 0, "!!!", s, 3, 0, "", [Token("abc"), Position], [Token("abc"), Position, ExpectedLiteral(3, "!!!", 0)]);
  }

  lemma TryOtherTerminatorVerdict()
    ensures Verify(Outcome(false, 3, [Token("abc"), Position, ExpectedLiteral(3, "!!!", 0)], Present)) == TestResult(FatalError, Present, [Token("abc"), Position, ExpectedLiteral(3, "!!!", 0), Cancel])
  {
    VerifyFatal(Outcome(false, 3, [Token("abc"), Position, ExpectedLiteral(3, "!!!", 0)], Present), [Token("abc"), Position, ExpectedLiteral(3, "!!!", 0), Cancel]);
  }

  /** `.try_` on "abcdef!!!": fatal even though the terminator appears later. */
  lemma TryLaterTerminator()
    ensures Verify(TryF(TestTerm, TryBody, "abcdef!!!", 0, [])) == TestResult(FatalError, Present, [Token("abc"), Position, ExpectedLiteral(3, "!!!", 0), Cancel])
  {
    TryLaterTerminatorStep0();
    TryLaterTerminatorVerdict();
  }

  lemma TryLaterTerminatorStep0()
    ensures TryF(TestTerm, TryBody, "abcdef!!!", 0, []) == Outcome(false, 3, [Token("abc"), Position, ExpectedLiteral(3, "!!!", 0)], Present)
  {
    var s := "abcdef!!!";
    TryLaterTerminatorStep0Part0(s);
    TryLaterTerminatorStep0Part1(s);
  }

  lemma TryLaterTerminatorStep0Part0(s: string)
    requires s == "abcdef!!!"
    ensures StepsF(TryBody.steps, s, 0, []) == Outcome(true, 3, [Token("abc"), Position], NoValue)
  {
    StepsWhole(TryBody.steps, s, 0, []);
    assert s[0..3] == "abc";
    LitHit(TryBody.steps, 0, "abc", s, 0, [], [Token("abc")]);
    PosStep(TryBody.steps, 1, s, 3, [Token("abc")], [Token("abc"), Position]);
    StepsDone(TryBody.steps, s, 3, [Token("abc"), Position]);
  }

  lemma TryLaterTerminatorStep0Part1(s: string)
    requires s == "abcdef!!!"
    ensures StepsF(TermRule(TestTerm).steps, s, 3, [Token("abc"), Position]) == Outcome(false, 3, [Token("abc"), Position, ExpectedLiteral(3, "!!!", 0)], NoValue)
  {
    StepsWhole(TermRule(TestTerm).steps, s, 3, [Token("abc"), Position]);
    assert s[3..3] == "";
    assert "!!!"[..0] == "";
    LitMiss(TermRule(TestTerm).steps, 0, "!!!", s, 3, 0, "", [Token("abc"), Position], [Token("abc"), Position, ExpectedLiteral(3, "!!!", 0)]);
  }

  lemma TryLaterTerminatorVerdict()
    ensures Verify(Outcome(false, 3, [Token("abc"), Position, ExpectedLiteral(3, "!!!", 0)], Present)) == TestResult(FatalError, Present, [Token("abc"), Position, ExpectedLiteral(3, "!!!", 0), Cancel])
  {
    VerifyFatal(Outcome(false, 3, [Token("abc"), Position, ExpectedLiteral(3, "!!!", 0)], Present), [Token("abc"), Position, ExpectedLiteral(3, "!!!", 0), Cancel]);
  }

  /** `.try_` on "abde;abc!!!": recovery skips "de" and cancels at the limit `;`. */
  lemma TryLimited()
    ensures Verify(TryF(TestTerm, TryBody, "abde;abc!!!", 0, [])) == TestResult(FatalError, NoValue, [ExpectedLiteral(0, "abc", 2), ErrorToken("ab"), Recovery, ErrorToken("de"), Cancel, Cancel])
  {
    TryLimitedStep0();
    TryLimitedVerdict();
  }

  lemma TryLimitedStep0()
    ensures TryF(TestTerm, TryBody, "abde;abc!!!", 0, []) == Outcome(false, 4, [ExpectedLiteral(0, "abc", 2), ErrorToken("ab"), Recovery, ErrorToken("de"), Cancel], NoValue)
  {
    var s := "abde;abc!!!";
    TryLimitedStep0Part0(s);
    TryLimitedStep1();
  }

  lemma TryLimitedStep0Part0(s: string)
    requires s == "abde;abc!!!"
    ensures StepsF(TryBody.steps, s, 0, []) == Outcome(false, 2, [ExpectedLiteral(0, "abc", 2), ErrorToken("ab")], NoValue)
  {
    StepsWhole(TryBody.steps, s, 0, []);
    assert s[0..2] == "ab";
    assert "abc"[..2] == "ab";
    LitMiss(TryBody.steps, 0, "abc", s, 0, 2, "ab", [], [ExpectedLiteral(0, "abc", 2), ErrorToken("ab")]);
  }

  lemma TryLimitedStep1()
    ensures RecoverF(TestTerm, "abde;abc!!!", 2, [ExpectedLiteral(0, "abc", 2), ErrorToken("ab")]) == Outcome(false, 4, [ExpectedLiteral(0, "abc", 2), ErrorToken("ab"), Recovery, ErrorToken("de"), Cancel], NoValue)
  {
    var s := "abde;abc!!!";
    AnyMatchesOne(TestTerm.lit, s, 2);
    assert s[2..2] == "";
    assert "!!!"[..0] == "";
    Miss("!!!", s, 2, 0, "");
    Any1("!!!", s, 2);
    assert s[2..2] == "";
    assert ";"[..0] == "";
    Miss(";", s, 2, 0, "");
    Any1(";", s, 2);
    ResyncNext([TestTerm.lit], TestTerm.limits, s, 2);
    assert s[3..3] == "";
    assert "!!!"[..0] == "";
    Miss("!!!", s, 3, 0, "");
    Any1("!!!", s, 3);
    assert s[3..3] == "";
    assert ";"[..0] == "";
    Miss(";", s, 3, 0, "");
    Any1(";", s, 3);
    ResyncNext([TestTerm.lit], TestTerm.limits, s, 3);
    assert s[4..4] == "";
    assert "!!!"[..0] == "";
    Miss("!!!", s, 4, 0, "");
    Any1("!!!", s, 4);
    assert s[4..5] == ";";
    Hit(";", s, 4);
    Any1(";", s, 4);
    ResyncHere([TestTerm.lit], TestTerm.limits, s, 4);
    assert s[2..4] == "de";
  }

  lemma TryLimitedVerdict()
    ensures Verify(Outcome(false, 4, [ExpectedLiteral(0, "abc", 2), ErrorToken("ab"), Recovery, ErrorToken("de"), Cancel], NoValue)) == TestResult(FatalError, NoValue, [ExpectedLiteral(0, "abc", 2), ErrorToken("ab"), Recovery, ErrorToken("de"), Cancel, Cancel])
  {
    VerifyFatal(Outcome(false, 4, [ExpectedLiteral(0, "abc", 2), ErrorToken("ab"), Recovery, ErrorToken("de"), Cancel], NoValue), [ExpectedLiteral(0, "abc", 2), ErrorToken("ab"), Recovery, ErrorToken("de"), Cancel, Cancel]);
  }

  /** `.opt` on "": as `.try_`. */
  lemma OptEmpty()
    ensures Verify(OptF(TestTerm, OptBody, "", 0, [])) == TestResult(FatalError, NoValue, [ExpectedLiteral(0, "abc", 0), Recovery, Cancel, Cancel])
  {
    OptEmptyStep0();
    OptEmptyVerdict();
  }

  lemma OptEmptyStep0()
    ensures OptF(TestTerm, OptBody, "", 0, []) == Outcome(false, 0, [ExpectedLiteral(0, "abc", 0), Recovery, Cancel], NoValue)
  {
    var s := "";
    assert s[0..0] == "";
    assert "!!!"[..0] == "";
    Miss("!!!", s, 0, 0, "");
    OptEmptyStep1();
  }

  lemma OptEmptyStep1()
    ensures TryF(TestTerm, OptBody, "", 0, []) == Outcome(false, 0, [ExpectedLiteral(0, "abc", 0), Recovery, Cancel], NoValue)
  {
    var s := "";
    OptEmptyStep1Part0(s);
    OptEmptyStep2();
  }

  lemma OptEmptyStep1Part0(s: string)
    requires s == ""
    ensures StepsF(OptBody.steps, s, 0, []) == Outcome(false, 0, [ExpectedLiteral(0, "abc", 0)], NoValue)
  {
    StepsWhole(OptBody.steps, s, 0, []);
    assert s[0..0] == "";
    assert "abc"[..0] == "";
    LitMiss(OptBody.steps, 0, "abc", s, 0, 0, "", [], [ExpectedLiteral(0, "abc", 0)]);
  }

  lemma OptEmptyStep2()
    ensures RecoverF(TestTerm, "", 0, [ExpectedLiteral(0, "abc", 0)]) == Outcome(false, 0, [ExpectedLiteral(0, "abc", 0), Recovery, Cancel], NoValue)
  {
    var s := "";
    AnyMatchesOne(TestTerm.lit, s, 0);
    assert s[0..0] == "";
    assert "!!!"[..0] == "";
    Miss("!!!", s, 0, 0, "");
    Any1("!!!", s, 0);
    ResyncHere([TestTerm.lit], TestTerm.limits, s, 0);
  }

  lemma OptEmptyVerdict()
    ensures Verify(Outcome(false, 0, [ExpectedLiteral(0, "abc", 0), Recovery, Cancel], NoValue)) == TestResult(FatalError, NoValue, [ExpectedLiteral(0, "abc", 0), Recovery, Cancel, Cancel])
  {
    VerifyFatal(Outcome(false, 0, [ExpectedLiteral(0, "abc", 0), Recovery, Cancel], NoValue), [ExpectedLiteral(0, "abc", 0), Recovery, Cancel, Cancel]);
  }

  /** `.opt` on "!!!": an absent value and no error. */
  lemma OptTerminatorOnly()
    ensures Verify(OptF(TestTerm, OptBody, "!!!", 0, [])) == TestResult(Success, Nullopt, [Token("!!!"), Position])
  {
    OptTerminatorOnlyStep0();
    OptTerminatorOnlyVerdict();
  }

  lemma OptTerminatorOnlyStep0()
    ensures OptF(TestTerm, OptBody, "!!!", 0, []) == Outcome(true, 3, [Token("!!!"), Position], Nullopt)
  {
    var s := "!!!";
    assert s[0..3] == "!!!";
    Hit("!!!", s, 0);
    OptTerminatorOnlyStep0Part0(s);
  }

  lemma OptTerminatorOnlyStep0Part0(s: string)
    requires s == "!!!"
    ensures StepsF(TermRule(TestTerm).steps, s, 0, []) == Outcome(true, 3, [Token("!!!"), Position], NoValue)
  {
    StepsWhole(TermRule(TestTerm).steps, s, 0, []);
    assert s[0..3] == "!!!";
    LitHit(TermRule(TestTerm).steps, 0, "!!!", s, 0, [], [Token("!!!")]);
    PosStep(TermRule(TestTerm).steps, 1, s, 3, [Token("!!!")], [Token("!!!"), Position]);
    StepsDone(TermRule(TestTerm).steps, s, 3, [Token("!!!"), Position]);
  }

  lemma OptTerminatorOnlyVerdict()
    ensures Verify(Outcome(true, 3, [Token("!!!"), Position], Nullopt)) == TestResult(Success, Nullopt, [Token("!!!"), Position])
  {
    VerifySuccess(Outcome(true, 3, [Token("!!!"), Position], Nullopt));
  }

  /** `.opt` on "abc!!!": a present value. */
  lemma OptSuccess()
    ensures Verify(OptF(TestTerm, OptBody, "abc!!!", 0, [])) == TestResult(Success, Present, [Token("abc"), Token("!!!"), Position])
  {
    OptSuccessStep0();
    OptSuccessVerdict();
  }

  lemma OptSuccessStep0()
    ensures OptF(TestTerm, OptBody, "abc!!!", 0, []) == Outcome(true, 6, [Token("abc"), Token("!!!"), Position], Present)
  {
    var s := "abc!!!";
    assert s[0..0] == "";
    assert "!!!"[..0] == "";
    Miss("!!!", s, 0, 0, "");
    OptSuccessStep1();
  }

  lemma OptSuccessStep1()
    ensures TryF(TestTerm, OptBody, "abc!!!", 0, []) == Outcome(true, 6, [Token("abc"), Token("!!!"), Position], Present)
  {
    var s := "abc!!!";
    OptSuccessStep1Part0(s);
    OptSuccessStep1Part1(s);
  }

  lemma OptSuccessStep1Part0(s: string)
    requires s == "abc!!!"
    ensures StepsF(OptBody.steps, s, 0, []) == Outcome(true, 3, [Token("abc")], NoValue)
  {
    StepsWhole(OptBody.steps, s, 0, []);
    assert s[0..3] == "abc";
    LitHit(OptBody.steps, 0, "abc", s, 0, [], [Token("abc")]);
    StepsDone(OptBody.steps, s, 3, [Token("abc")]);
  }

  lemma OptSuccessStep1Part1(s: string)
    requires s == "abc!!!"
    ensures StepsF(TermRule(TestTerm).steps, s, 3, [Token("abc")]) == Outcome(true, 6, [Token("abc"), Token("!!!"), Position], NoValue)
  {
    StepsWhole(TermRule(TestTerm).steps, s, 3, [Token("abc")]);
    assert s[3..6] == "!!!";
    LitHit(TermRule(TestTerm).steps, 0, "!!!", s, 3, [Token("abc")], [Token("abc"), Token("!!!")]);
    PosStep(TermRule(TestTerm).steps, 1, s, 6, [Token("abc"), Token("!!!")], [Token("abc"), Token("!!!"), Position]);
    StepsDone(TermRule(TestTerm).steps, s, 6, [Token("abc"), Token("!!!"), Position]);
  }

  lemma OptSuccessVerdict()
    ensures Verify(Outcome(true, 6, [Token("abc"), Token("!!!"), Position], Present)) == TestResult(Success, Present, [Token("abc"), Token("!!!"), Position])
  {
    VerifySuccess(Outcome(true, 6, [Token("abc"), Token("!!!"), Position], Present));
  }

  /** `.opt` on "ab!!!": recovered. */
  lemma OptPartialBody()
    ensures Verify(OptF(TestTerm, OptBody, "ab!!!", 0, [])) == TestResult(RecoveredError, NoValue, [ExpectedLiteral(0, "abc", 2), ErrorToken("ab"), Recovery, Finish, Token("!!!"), Position])
  {
    OptPartialBodyStep0();
    OptPartialBodyVerdict();
  }

  lemma OptPartialBodyStep0()
    ensures OptF(TestTerm, OptBody, "ab!!!", 0, []) == Outcome(true, 5, [ExpectedLiteral(0, "abc", 2), ErrorToken("ab"), Recovery, Finish, Token("!!!"), Position], NoValue)
  {
    var s := "ab!!!";
    assert s[0..0] == "";
    assert "!!!"[..0] == "";
    Miss("!!!", s, 0, 0, "");
    OptPartialBodyStep1();
  }

  lemma OptPartialBodyStep1()
    ensures TryF(TestTerm, OptBody, "ab!!!", 0, []) == Outcome(true, 5, [ExpectedLiteral(0, "abc", 2), ErrorToken("ab"), Recovery, Finish, Token("!!!"), Position], NoValue)
  {
    var s := "ab!!!";
    OptPartialBodyStep1Part0(s);
    OptPartialBodyStep2();
  }

  lemma OptPartialBodyStep1Part0(s: string)
    requires s == "ab!!!"
    ensures StepsF(OptBody.steps, s, 0, []) == Outcome(false, 2, [ExpectedLiteral(0, "abc", 2), ErrorToken("ab")], NoValue)
  {
    StepsWhole(OptBody.steps, s, 0, []);
    assert s[0..2] == "ab";
    assert "abc"[..2] == "ab";
    LitMiss(OptBody.steps, 0, "abc", s, 0, 2, "ab", [], [ExpectedLiteral(0, "abc", 2), ErrorToken("ab")]);
  }

  lemma OptPartialBodyStep2()
    ensures RecoverF(TestTerm, "ab!!!", 2, [ExpectedLiteral(0, "abc", 2), ErrorToken("ab")]) == Outcome(true, 5, [ExpectedLiteral(0, "abc", 2), ErrorToken("ab"), Recovery, Finish, Token("!!!"), Position], NoValue)
  {
    var s := "ab!!!";
    AnyMatchesOne(TestTerm.lit, s, 2);
    assert s[2..5] == "!!!";
    Hit("!!!", s, 2);
    Any1("!!!", s, 2);
    assert s[2..2] == "";
    assert ";"[..0] == "";
    Miss(";", s, 2, 0, "");
    Any1(";", s, 2);
    ResyncHere([TestTerm.lit], TestTerm.limits, s, 2);
    OptPartialBodyStep2Part0(s);
  }

  lemma OptPartialBodyStep2Part0(s: string)
    requires s == "ab!!!"
    ensures StepsF(TermRule(TestTerm).steps, s, 2, [ExpectedLiteral(0, "abc", 2), ErrorToken("ab")] + [Recovery] + [Finish]) == Outcome(true, 5, [ExpectedLiteral(0, "abc", 2), ErrorToken("ab"), Recovery, Finish, Token("!!!"), Position], NoValue)
  {
    StepsWhole(TermRule(TestTerm).steps, s, 2, [ExpectedLiteral(0, "abc", 2), ErrorToken("ab")] + [Recovery] + [Finish]);
    assert s[2..5] == "!!!";
    LitHit(TermRule(TestTerm).steps, 0, "!!!", s, 2, [ExpectedLiteral(0, "abc", 2), ErrorToken("ab")] + [Recovery] + [Finish], [ExpectedLiteral(0, "abc", 2), ErrorToken("ab"), Recovery, Finish, Token("!!!")]);
    PosStep(TermRule(TestTerm).steps, 1, s, 5, [ExpectedLiteral(0, "abc", 2), ErrorToken("ab"), Recovery, Finish, Token("!!!")], [ExpectedLiteral(0, "abc", 2), ErrorToken("ab"), Recovery, Finish, Token("!!!"), Position]);
    StepsDone(TermRule(TestTerm).steps, s, 5, [ExpectedLiteral(0, "abc", 2), ErrorToken("ab"), Recovery, Finish, Token("!!!"), Position]);
  }

  lemma OptPartialBodyVerdict()
    ensures Verify(Outcome(true, 5, [ExpectedLiteral(0, "abc", 2), ErrorToken("ab"), Recovery, Finish, Token("!!!"), Position], NoValue)) == TestResult(RecoveredError, NoValue, [ExpectedLiteral(0, "abc", 2), ErrorToken("ab"), Recovery, Finish, Token("!!!"), Position])
  {
    VerifyRecovered(Outcome(true, 5, [ExpectedLiteral(0, "abc", 2), ErrorToken("ab"), Recovery, Finish, Token("!!!"), Position], NoValue), 0);
  }

  /** `.opt` on "abc": fatal. */
  lemma OptUnterminated()
    ensures Verify(OptF(TestTerm, OptBody, "abc", 0, [])) == TestResult(FatalError, Present, [Token("abc"), ExpectedLiteral(3, "!!!", 0), Cancel])
  {
    OptUnterminatedStep0();
    OptUnterminatedVerdict();
  }

  lemma OptUnterminatedStep0()
    ensures OptF(TestTerm, OptBody, "abc", 0, []) == Outcome(false, 3, [Token("abc"), ExpectedLiteral(3, "!!!", 0)], Present)
  {
    var s := "abc";
    assert s[0..0] == "";
    assert "!!!"[..0] == "";
    Miss("!!!", s, 0, 0, "");
    OptUnterminatedStep1();
  }

  lemma OptUnterminatedStep1()
    ensures TryF(TestTerm, OptBody, "abc", 0, []) == Outcome(false, 3, [Token("abc"), ExpectedLiteral(3, "!!!", 0)], Present)
  {
    var s := "abc";
    OptUnterminatedStep1Part0(s);
    OptUnterminatedStep1Part1(s);
  }

  lemma OptUnterminatedStep1Part0(s: string)
    requires s == "abc"
    ensures StepsF(OptBody.steps, s, 0, []) == Outcome(true, 3, [Token("abc")], NoValue)
  {
    StepsWhole(OptBody.steps, s, 0, []);
    assert s[0..3] == "abc";
    LitHit(OptBody.steps, 0, "abc", s, 0, [], [Token("abc")]);
    StepsDone(OptBody.steps, s, 3, [Token("abc")]);
  }

  lemma OptUnterminatedStep1Part1(s: string)
    requires s == "abc"
    ensures StepsF(TermRule(TestTerm).steps, s, 3, [Token("abc")]) == Outcome(false, 3, [Token("abc"), ExpectedLiteral(3, "!!!", 0)], NoValue)
  {
    StepsWhole(TermRule(TestTerm).steps, s, 3, [Token("abc")]);
    assert s[3..3] == "";
    assert "!!!"[..0] == "";
    LitMiss(TermRule(TestTerm).steps, 0, "!!!", s, 3, 0, "", [Token("abc")], [Token("abc"), ExpectedLiteral(3, "!!!", 0)]);
  }

  lemma OptUnterminatedVerdict()
    ensures Verify(Outcome(false, 3, [Token("abc"), ExpectedLiteral(3, "!!!", 0)], Present)) == TestResult(FatalError, Present, [Token("abc"), ExpectedLiteral(3, "!!!", 0), Cancel])
  {
    VerifyFatal(Outcome(false, 3, [Token("abc"), ExpectedLiteral(3, "!!!", 0)], Present), [Token("abc"), ExpectedLiteral(3, "!!!", 0), Cancel]);
  }

  /** `.opt` on "abde;abc!!!": cancelled at the limit. */
  lemma OptLimited()
    ensures Verify(OptF(TestTerm, OptBody, "abde;abc!!!", 0, [])) == TestResult(FatalError, NoValue, [ExpectedLiteral(0, "abc", 2), ErrorToken("ab"), Recovery, ErrorToken("de"), Cancel, Cancel])
  {
    OptLimitedStep0();
    OptLimitedVerdict();
  }

  lemma OptLimitedStep0()
    ensures OptF(TestTerm, OptBody, "abde;abc!!!", 0, []) == Outcome(false, 4, [ExpectedLiteral(0, "abc", 2), ErrorToken("ab"), Recovery, ErrorToken("de"), Cancel], NoValue)
  {
    var s := "abde;abc!!!";
    assert s[0..0] == "";
    assert "!!!"[..0] == "";
    Miss("!!!", s, 0, 0, "");
    OptLimitedStep1();
  }

  lemma OptLimitedStep1()
    ensures TryF(TestTerm, OptBody, "abde;abc!!!", 0, []) == Outcome(false, 4, [ExpectedLiteral(0, "abc", 2), ErrorToken("ab"), Recovery, ErrorToken("de"), Cancel], NoValue)
  {
    var s := "abde;abc!!!";
    OptLimitedStep1Part0(s);
    OptLimitedStep2();
  }

  lemma OptLimitedStep1Part0(s: string)
    requires s == "abde;abc!!!"
    ensures StepsF(OptBody.steps, s, 0, []) == Outcome(false, 2, [ExpectedLiteral(0, "abc", 2), ErrorToken("ab")], NoValue)
  {
    StepsWhole(OptBody.steps, s, 0, []);
    assert s[0..2] == "ab";
    assert "abc"[..2] == "ab";
    LitMiss(OptBody.steps, 0, "abc", s, 0, 2, "ab", [], [ExpectedLiteral(0, "abc", 2), ErrorToken("ab")]);
  }

  lemma OptLimitedStep2()
    ensures RecoverF(TestTerm, "abde;abc!!!", 2, [ExpectedLiteral(0, "abc", 2), ErrorToken("ab")]) == Outcome(false, 4, [ExpectedLiteral(0, "abc", 2), ErrorToken("ab"), Recovery, ErrorToken("de"), Cancel], NoValue)
  {
    var s := "abde;abc!!!";
    AnyMatchesOne(TestTerm.lit, s, 2);
    assert s[2..2] == "";
    assert "!!!"[..0] == "";
    Miss("!!!", s, 2, 0, "");
    Any1("!!!", s, 2);
    assert s[2..2] == "";
    assert ";"[..0] == "";
    Miss(";", s, 2, 0, "");
    Any1(";", s, 2);
    ResyncNext([TestTerm.lit], TestTerm.limits, s, 2);
    assert s[3..3] == "";
    assert "!!!"[..0] == "";
    Miss("!!!", s, 3, 0, "");
    Any1("!!!", s, 3);
    assert s[3..3] == "";
    assert ";"[..0] == "";
    Miss(";", s, 3, 0, "");
    Any1(";", s, 3);
    ResyncNext([TestTerm.lit], TestTerm.limits, s, 3);
    assert s[4..4] == "";
    assert "!!!"[..0] == "";
    Miss("!!!", s, 4, 0, "");
    Any1("!!!", s, 4);
    assert s[4..5] == ";";
    Hit(";", s, 4);
    Any1(";", s, 4);
    ResyncHere([TestTerm.lit], TestTerm.limits, s, 4);
    assert s[2..4] == "de";
  }

  lemma OptLimitedVerdict()
    ensures Verify(Outcome(false, 4, [ExpectedLiteral(0, "abc", 2), ErrorToken("ab"), Recovery, ErrorToken("de"), Cancel], NoValue)) == TestResult(FatalError, NoValue, [ExpectedLiteral(0, "abc", 2), ErrorToken("ab"), Recovery, ErrorToken("de"), Cancel, Cancel])
  {
    VerifyFatal(Outcome(false, 4, [ExpectedLiteral(0, "abc", 2), ErrorToken("ab"), Recovery, ErrorToken("de"), Cancel], NoValue), [ExpectedLiteral(0, "abc", 2), ErrorToken("ab"), Recovery, ErrorToken("de"), Cancel, Cancel]);
  }

  /** `.list(branch)` on "". */
  lemma BranchListEmpty()
    ensures Verify(ListF(BranchList, "", 0, [])) == TestResult(FatalError, Count(0), [ExpectedLiteral(0, "ab", 0), Recovery, Cancel, Cancel])
  {
    BranchListEmptyStep0();
    BranchListEmptyVerdict();
  }

  lemma BranchListEmptyStep0()
    ensures ListF(BranchList, "", 0, []) == Outcome(false, 0, [ExpectedLiteral(0, "ab", 0), Recovery, Cancel], Count(0))
  {
    var s := "";
    BranchListEmptyStep1();
  }

  lemma BranchListEmptyStep1()
    ensures Resume(BranchList, "", AtItem, 0, 0, []) == Outcome(false, 0, [ExpectedLiteral(0, "ab", 0), Recovery, Cancel], Count(0))
  {
    var s := "";
    assert s[0..0] == "";
    assert "ab"[..0] == "";
    Miss("ab", s, 0, 0, "");
    BranchListEmptyStep1Part0(s);
    BranchListEmptyStep2();
  }

  lemma BranchListEmptyStep1Part0(s: string)
    requires s == ""
    ensures StepsF(BranchItem.steps, s, 0, []) == Outcome(false, 0, [ExpectedLiteral(0, "ab", 0)], NoValue)
  {
    StepsWhole(BranchItem.steps, s, 0, []);
    assert s[0..0] == "";
    assert "ab"[..0] == "";
    LitMiss(BranchItem.steps, 0, "ab", s, 0, 0, "", [], [ExpectedLiteral(0, "ab", 0)]);
  }

  lemma BranchListEmptyStep2()
    ensures Resume(BranchList, "", AtRecovery, 0, 0, [ExpectedLiteral(0, "ab", 0)]) == Outcome(false, 0, [ExpectedLiteral(0, "ab", 0), Recovery, Cancel], Count(0))
  {
    var s := "";
    assert ListStops(BranchList) == ["!!!", "ab"];
    assert s[0..0] == "";
    assert "!!!"[..0] == "";
    Miss("!!!", s, 0, 0, "");
    assert s[0..0] == "";
    assert "ab"[..0] == "";
    Miss("ab", s, 0, 0, "");
    Any2("!!!", "ab", s, 0);
    ResyncHere(ListStops(BranchList), BranchList.term.limits, s, 0);
    BranchListEmptyStep2Part0(s);
  }

  lemma BranchListEmptyStep2Part0(s: string)
    requires s == ""
    ensures Skip(s, 0, 0, [ExpectedLiteral(0, "ab", 0)] + [Recovery]) == [ExpectedLiteral(0, "ab", 0), Recovery]
  {
    SkipDone(s, 0, [ExpectedLiteral(0, "ab", 0)] + [Recovery]);
  }

  lemma BranchListEmptyVerdict()
    ensures Verify(Outcome(false, 0, [ExpectedLiteral(0, "ab", 0), Recovery, Cancel], Count(0))) == TestResult(FatalError, Count(0), [ExpectedLiteral(0, "ab", 0), Recovery, Cancel, Cancel])
  {
    VerifyFatal(Outcome(false, 0, [ExpectedLiteral(0, "ab", 0), Recovery, Cancel], Count(0)), [ExpectedLiteral(0, "ab", 0), Recovery, Cancel, Cancel]);
  }

  /** `.list(branch)` on "!!!": the first item is mandatory. */
  lemma BranchListTerminatorOnly()
    ensures Verify(ListF(BranchList, "!!!", 0, [])) == TestResult(RecoveredError, Count(0), [ExpectedLiteral(0, "ab", 0), Recovery, Finish, Token("!!!"), Position])
  {
    BranchListTerminatorOnlyStep0();
    BranchListTerminatorOnlyVerdict();
  }

  lemma BranchListTerminatorOnlyStep0()
    ensures ListF(BranchList, "!!!", 0, []) == Outcome(true, 3, [ExpectedLiteral(0, "ab", 0), Recovery, Finish, Token("!!!"), Position], Count(0))
  {
    var s := "!!!";
    BranchListTerminatorOnlyStep1();
  }

  lemma BranchListTerminatorOnlyStep1()
    ensures Resume(BranchList, "!!!", AtItem, 0, 0, []) == Outcome(true, 3, [ExpectedLiteral(0, "ab", 0), Recovery, Finish, Token("!!!"), Position], Count(0))
  {
    var s := "!!!";
    assert s[0..0] == "";
    assert "ab"[..0] == "";
    Miss("ab", s, 0, 0, "");
    BranchListTerminatorOnlyStep1Part0(s);
    BranchListTerminatorOnlyStep2();
  }

  lemma BranchListTerminatorOnlyStep1Part0(s: string)
    requires s == "!!!"
    ensures StepsF(BranchItem.steps, s, 0, []) == Outcome(false, 0, [ExpectedLiteral(0, "ab", 0)], NoValue)
  {
    StepsWhole(BranchItem.steps, s, 0, []);
    assert s[0..0] == "";
    assert "ab"[..0] == "";
    LitMiss(BranchItem.steps, 0, "ab", s, 0, 0, "", [], [ExpectedLiteral(0, "ab", 0)]);
  }

  lemma BranchListTerminatorOnlyStep2()
    ensures Resume(BranchList, "!!!", AtRecovery, 0, 0, [ExpectedLiteral(0, "ab", 0)]) == Outcome(true, 3, [ExpectedLiteral(0, "ab", 0), Recovery, Finish, Token("!!!"), Position], Count(0))
  {
    var s := "!!!";
    assert ListStops(BranchList) == ["!!!", "ab"];
    assert s[0..3] == "!!!";
    Hit("!!!", s, 0);
    assert s[0..0] == "";
    assert "ab"[..0] == "";
    Miss("ab", s, 0, 0, "");
    Any2("!!!", "ab", s, 0);
    assert s[0..0] == "";
    assert ";"[..0] == "";
    Miss(";", s, 0, 0, "");
    Any1(";", s, 0);
    ResyncHere(ListStops(BranchList), BranchList.term.limits, s, 0);
    BranchListTerminatorOnlyStep2Part0(s);
    BranchListTerminatorOnlyStep2Part1(s);
  }

  lemma BranchListTerminatorOnlyStep2Part0(s: string)
    requires s == "!!!"
    ensures Skip(s, 0, 0, [ExpectedLiteral(0, "ab", 0)] + [Recovery]) == [ExpectedLiteral(0, "ab", 0), Recovery]
  {
    SkipDone(s, 0, [ExpectedLiteral(0, "ab", 0)] + [Recovery]);
  }

  lemma BranchListTerminatorOnlyStep2Part1(s: string)
    requires s == "!!!"
    ensures StepsF(TermRule(TestTerm).steps, s, 0, [ExpectedLiteral(0, "ab", 0), Recovery] + [Finish]) == Outcome(true, 3, [ExpectedLiteral(0, "ab", 0), Recovery, Finish, Token("!!!"), Position], NoValue)
  {
    StepsWhole(TermRule(TestTerm).steps, s, 0, [ExpectedLiteral(0, "ab", 0), Recovery] + [Finish]);
    assert s[0..3] == "!!!";
    LitHit(TermRule(TestTerm).steps, 0, "!!!", s, 0, [ExpectedLiteral(0, "ab", 0), Recovery] + [Finish], [ExpectedLiteral(0, "ab", 0), Recovery, Finish, Token("!!!")]);
    PosStep(TermRule(TestTerm).steps, 1, s, 3, [ExpectedLiteral(0, "ab", 0), Recovery, Finish, Token("!!!")], [ExpectedLiteral(0, "ab", 0), Recovery, Finish, Token("!!!"), Position]);
    StepsDone(TermRule(TestTerm).steps, s, 3, [ExpectedLiteral(0, "ab", 0), Recovery, Finish, Token("!!!"), Position]);
  }

  lemma BranchListTerminatorOnlyVerdict()
    ensures Verify(Outcome(true, 3, [ExpectedLiteral(0, "ab", 0), Recovery, Finish, Token("!!!"), Position], Count(0))) == TestResult(RecoveredError, Count(0), [ExpectedLiteral(0, "ab", 0), Recovery, Finish, Token("!!!"), Position])
  {
    VerifyRecovered(Outcome(true, 3, [ExpectedLiteral(0, "ab", 0), Recovery, Finish, Token("!!!"), Position], Count(0)), 0);
  }

  /** `.list(branch)` on "abc!!!". */
  lemma BranchListOne()
    ensures Verify(ListF(BranchList, "abc!!!", 0, [])) == TestResult(Success, Count(1), [Token("ab"), Token("c"), Token("!!!"), Position])
  {
    BranchListOneStep0();
    BranchListOneVerdict();
  }

  lemma BranchListOneStep0()
    ensures ListF(BranchList, "abc!!!", 0, []) == Outcome(true, 6, [Token("ab"), Token("c"), Token("!!!"), Position], Count(1))
  {
    var s := "abc!!!";
    BranchListOneStep1();
  }

  lemma BranchListOneStep1()
    ensures Resume(BranchList, "abc!!!", AtItem, 0, 0, []) == Outcome(true, 6, [Token("ab"), Token("c"), Token("!!!"), Position], Count(1))
  {
    var s := "abc!!!";
    assert s[0..2] == "ab";
    Hit("ab", s, 0);
    BranchListOneStep1Part0(s);
    BranchListOneStep2();
  }

  lemma BranchListOneStep1Part0(s: string)
    requires s == "abc!!!"
    ensures StepsF(BranchItem.steps, s, 0, []) == Outcome(true, 3, [Token("ab"), Token("c")], NoValue)
  {
    StepsWhole(BranchItem.steps, s, 0, []);
    assert s[0..2] == "ab";
    LitHit(BranchItem.steps, 0, "ab", s, 0, [], [Token("ab")]);
    assert s[2..3] == "c";
    LitHit(BranchItem.steps, 1, "c", s, 2, [Token("ab")], [Token("ab"), Token("c")]);
    StepsDone(BranchItem.steps, s, 3, [Token("ab"), Token("c")]);
  }

  lemma BranchListOneStep2()
    ensures Resume(BranchList, "abc!!!", AtTerminator, 3, 1, [Token("ab"), Token("c")]) == Outcome(true, 6, [Token("ab"), Token("c"), Token("!!!"), Position], Count(1))
  {
    var s := "abc!!!";
    assert s[3..6] == "!!!";
    Hit("!!!", s, 3);
    BranchListOneStep2Part0(s);
  }

  lemma BranchListOneStep2Part0(s: string)
    requires s == "abc!!!"
    ensures StepsF(TermRule(TestTerm).steps, s, 3, [Token("ab"), Token("c")]) == Outcome(true, 6, [Token("ab"), Token("c"), Token("!!!"), Position], NoValue)
  {
    StepsWhole(TermRule(TestTerm).steps, s, 3, [Token("ab"), Token("c")]);
    assert s[3..6] == "!!!";
    LitHit(TermRule(TestTerm).steps, 0, "!!!", s, 3, [Token("ab"), Token("c")], [Token("ab"), Token("c"), Token("!!!")]);
    PosStep(TermRule(TestTerm).steps, 1, s, 6, [Token("ab"), Token("c"), Token("!!!")], [Token("ab"), Token("c"), Token("!!!"), Position]);
    StepsDone(TermRule(TestTerm).steps, s, 6, [Token("ab"), Token("c"), Token("!!!"), Position]);
  }

  lemma BranchListOneVerdict()
    ensures Verify(Outcome(true, 6, [Token("ab"), Token("c"), Token("!!!"), Position], Count(1))) == TestResult(Success, Count(1), [Token("ab"), Token("c"), Token("!!!"), Position])
  {
    VerifySuccess(Outcome(true, 6, [Token("ab"), Token("c"), Token("!!!"), Position], Count(1)));
  }

  /** `.list(branch)` on "abcabc!!!". */
  lemma BranchListTwo()
    ensures Verify(ListF(BranchList, "abcabc!!!", 0, [])) == TestResult(Success, Count(2), [Token("ab"), Token("c"), Token("ab"), Token("c"), Token("!!!"), Position])
  {
    BranchListTwoStep0();
    BranchListTwoVerdict();
  }

  lemma BranchListTwoStep0()
    ensures ListF(BranchList, "abcabc!!!", 0, []) == Outcome(true, 9, [Token("ab"), Token("c"), Token("ab"), Token("c"), Token("!!!"), Position], Count(2))
  {
    var s := "abcabc!!!";
    BranchListTwoStep1();
  }

  lemma BranchListTwoStep1()
    ensures Resume(BranchList, "abcabc!!!", AtItem, 0, 0, []) == Outcome(true, 9, [Token("ab"), Token("c"), Token("ab"), Token("c"), Token("!!!"), Position], Count(2))
  {
    var s := "abcabc!!!";
    assert s[0..2] == "ab";
    Hit("ab", s, 0);
    BranchListTwoStep1Part0(s);
    BranchListTwoStep2();
  }

  lemma BranchListTwoStep1Part0(s: string)
    requires s == "abcabc!!!"
    ensures StepsF(BranchItem.steps, s, 0, []) == Outcome(true, 3, [Token("ab"), Token("c")], NoValue)
  {
    StepsWhole(BranchItem.steps, s, 0, []);
    assert s[0..2] == "ab";
    LitHit(BranchItem.steps, 0, "ab", s, 0, [], [Token("ab")]);
    assert s[2..3] == "c";
    LitHit(BranchItem.steps, 1, "c", s, 2, [Token("ab")], [Token("ab"), Token("c")]);
    StepsDone(BranchItem.steps, s, 3, [Token("ab"), Token("c")]);
  }

  lemma BranchListTwoStep2()
    ensures Resume(BranchList, "abcabc!!!", AtTerminator, 3, 1, [Token("ab"), Token("c")]) == Outcome(true, 9, [Token("ab"), Token("c"), Token("ab"), Token("c"), Token("!!!"), Position], Count(2))
  {
    var s := "abcabc!!!";
    assert s[3..3] == "";
    assert "!!!"[..0] == "";
    Miss("!!!", s, 3, 0, "");
    BranchListTwoStep3();
  }

  lemma BranchListTwoStep3()
    ensures Resume(BranchList, "abcabc!!!", AtSeparator, 3, 1, [Token("ab"), Token("c")]) == Outcome(true, 9, [Token("ab"), Token("c"), Token("ab"), Token("c"), Token("!!!"), Position], Count(2))
  {
    var s := "abcabc!!!";
    BranchListTwoStep4();
  }

  lemma BranchListTwoStep4()
    ensures Resume(BranchList, "abcabc!!!", AtItem, 3, 1, [Token("ab"), Token("c")]) == Outcome(true, 9, [Token("ab"), Token("c"), Token("ab"), Token("c"), Token("!!!"), Position], Count(2))
  {
    var s := "abcabc!!!";
    assert s[3..5] == "ab";
    Hit("ab", s, 3);
    BranchListTwoStep4Part0(s);
    BranchListTwoStep5();
  }

  lemma BranchListTwoStep4Part0(s: string)
    requires s == "abcabc!!!"
    ensures StepsF(BranchItem.steps, s, 3, [Token("ab"), Token("c")]) == Outcome(true, 6, [Token("ab"), Token("c"), Token("ab"), Token("c")], NoValue)
  {
    StepsWhole(BranchItem.steps, s, 3, [Token("ab"), Token("c")]);
    assert s[3..5] == "ab";
    LitHit(BranchItem.steps, 0, "ab", s, 3, [Token("ab"), Token("c")], [Token("ab"), Token("c"), Token("ab")]);
    assert s[5..6] == "c";
    LitHit(BranchItem.steps, 1, "c", s, 5, [Token("ab"), Token("c"), Token("ab")], [Token("ab"), Token("c"), Token("ab"), Token("c")]);
    StepsDone(BranchItem.steps, s, 6, [Token("ab"), Token("c"), Token("ab"), Token("c")]);
  }

  lemma BranchListTwoStep5()
    ensures Resume(BranchList, "abcabc!!!", AtTerminator, 6, 2, [Token("ab"), Token("c"), Token("ab"), Token("c")]) == Outcome(true, 9, [Token("ab"), Token("c"), Token("ab"), Token("c"), Token("!!!"), Position], Count(2))
  {
    var s := "abcabc!!!";
    assert s[6..9] == "!!!";
    Hit("!!!", s, 6);
    BranchListTwoStep5Part0(s);
  }

  lemma BranchListTwoStep5Part0(s: string)
    requires s == "abcabc!!!"
    ensures StepsF(TermRule(TestTerm).steps, s, 6, [Token("ab"), Token("c"), Token("ab"), Token("c")]) == Outcome(true, 9, [Token("ab"), Token("c"), Token("ab"), Token("c"), Token("!!!"), Position], NoValue)
  {
    StepsWhole(TermRule(TestTerm).steps, s, 6, [Token("ab"), Token("c"), Token("ab"), Token("c")]);
    assert s[6..9] == "!!!";
    LitHit(TermRule(TestTerm).steps, 0, "!!!", s, 6, [Token("ab"), Token("c"), Token("ab"), Token("c")], [Token("ab"), Token("c"), Token("ab"), Token("c"), Token("!!!")]);
    PosStep(TermRule(TestTerm).steps, 1, s, 9, [Token("ab"), Token("c"), Token("ab"), Token("c"), Token("!!!")], [Token("ab"), Token("c"), Token("ab"), Token("c"), Token("!!!"), Position]);
    StepsDone(TermRule(TestTerm).steps, s, 9, [Token("ab"), Token("c"), Token("ab"), Token("c"), Token("!!!"), Position]);
  }

  lemma BranchListTwoVerdict()
    ensures Verify(Outcome(true, 9, [Token("ab"), Token("c"), Token("ab"), Token("c"), Token("!!!"), Position], Count(2))) == TestResult(Success, Count(2), [Token("ab"), Token("c"), Token("ab"), Token("c"), Token("!!!"), Position])
  {
    VerifySuccess(Outcome(true, 9, [Token("ab"), Token("c"), Token("ab"), Token("c"), Token("!!!"), Position], Count(2)));
  }

  /** `.list(branch)` on "abcabcabc!!!". */
  lemma BranchListThree()
    ensures Verify(ListF(BranchList, "abcabcabc!!!", 0, [])) == TestResult(Success, Count(3), [Token("ab"), Token("c"), Token("ab"), Token("c"), Token("ab"), Token("c"), Token("!!!"), Position])
  {
    BranchListThreeStep0();
    BranchListThreeVerdict();
  }

  lemma BranchListThreeStep0()
    ensures ListF(BranchList, "abcabcabc!!!", 0, []) == Outcome(true, 12, [Token("ab"), Token("c"), Token("ab"), Token("c"), Token("ab"), Token("c"), Token("!!!"), Position], Count(3))
  {
    var s := "abcabcabc!!!";
    BranchListThreeStep1();
  }

  lemma BranchListThreeStep1()
    ensures Resume(BranchList, "abcabcabc!!!", AtItem, 0, 0, []) == Outcome(true, 12, [Token("ab"), Token("c"), Token("ab"), Token("c"), Token("ab"), Token("c"), Token("!!!"), Position], Count(3))
  {
    var s := "abcabcabc!!!";
    assert s[0..2] == "ab";
    Hit("ab", s, 0);
    BranchListThreeStep1Part0(s);
    BranchListThreeStep2();
  }

  lemma BranchListThreeStep1Part0(s: string)
    requires s == "abcabcabc!!!"
    ensures StepsF(BranchItem.steps, s, 0, []) == Outcome(true, 3, [Token("ab"), Token("c")], NoValue)
  {
    StepsWhole(BranchItem.steps, s, 0, []);
    assert s[0..2] == "ab";
    LitHit(BranchItem.steps, 0, "ab", s, 0, [], [Token("ab")]);
    assert s[2..3] == "c";
    LitHit(BranchItem.steps, 1, "c", s, 2, [Token("ab")], [Token("ab"), Token("c")]);
    StepsDone(BranchItem.steps, s, 3, [Token("ab"), Token("c")]);
  }

  lemma BranchListThreeStep2()
    ensures Resume(BranchList, "abcabcabc!!!", AtTerminator, 3, 1, [Token("ab"), Token("c")]) == Outcome(true, 12, [Token("ab"), Token("c"), Token("ab"), Token("c"), Token("ab"), Token("c"), Token("!!!"), Position], Count(3))
  {
    var s := "abcabcabc!!!";
    assert s[3..3] == "";
    assert "!!!"[..0] == "";
    Miss("!!!", s, 3, 0, "");
    BranchListThreeStep3();
  }

  lemma BranchListThreeStep3()
    ensures Resume(BranchList, "abcabcabc!!!", AtSeparator, 3, 1, [Token("ab"), Token("c")]) == Outcome(true, 12, [Token("ab"), Token("c"), Token("ab"), Token("c"), Token("ab"), Token("c"), Token("!!!"), Position], Count(3))
  {
    var s := "abcabcabc!!!";
    BranchListThreeStep4();
  }

  lemma BranchListThreeStep4()
    ensures Resume(BranchList, "abcabcabc!!!", AtItem, 3, 1, [Token("ab"), Token("c")]) == Outcome(true, 12, [Token("ab"), Token("c"), Token("ab"), Token("c"), Token("ab"), Token("c"), Token("!!!"), Position], Count(3))
  {
    var s := "abcabcabc!!!";
    assert s[3..5] == "ab";
    Hit("ab", s, 3);
    BranchListThreeStep4Part0(s);
    BranchListThreeStep5();
  }

  lemma BranchListThreeStep4Part0(s: string)
    requires s == "abcabcabc!!!"
    ensures StepsF(BranchItem.steps, s, 3, [Token("ab"), Token("c")]) == Outcome(true, 6, [Token("ab"), Token("c"), Token("ab"), Token("c")], NoValue)
  {
    StepsWhole(BranchItem.steps, s, 3, [Token("ab"), Token("c")]);
    assert s[3..5] == "ab";
    LitHit(BranchItem.steps, 0, "ab", s, 3, [Token("ab"), Token("c")], [Token("ab"), Token("c"), Token("ab")]);
    assert s[5..6] == "c";
    LitHit(BranchItem.steps, 1, "c", s, 5, [Token("ab"), Token("c"), Token("ab")], [Token("ab"), Token("c"), Token("ab"), Token("c")]);
    StepsDone(BranchItem.steps, s, 6, [Token("ab"), Token("c"), Token("ab"), Token("c")]);
  }

  lemma BranchListThreeStep5()
    ensures Resume(BranchList, "abcabcabc!!!", AtTerminator, 6, 2, [Token("ab"), Token("c"), Token("ab"), Token("c")]) == Outcome(true, 12, [Token("ab"), Token("c"), Token("ab"), Token("c"), Token("ab"), Token("c"), Token("!!!"), Position], Count(3))
  {
    var s := "abcabcabc!!!";
    assert s[6..6] == "";
    assert "!!!"[..0] == "";
    Miss("!!!", s, 6, 0, "");
    BranchListThreeStep6();
  }

  lemma BranchListThreeStep6()
    ensures Resume(BranchList, "abcabcabc!!!", AtSeparator, 6, 2, [Token("ab"), Token("c"), Token("ab"), Token("c")]) == Outcome(true, 12, [Token("ab"), Token("c"), Token("ab"), Token("c"), Token("ab"), Token("c"), Token("!!!"), Position], Count(3))
  {
    var s := "abcabcabc!!!";
    BranchListThreeStep7();
  }

  lemma BranchListThreeStep7()
    ensures Resume(BranchList, "abcabcabc!!!", AtItem, 6, 2, [Token("ab"), Token("c"), Token("ab"), Token("c")]) == Outcome(true, 12, [Token("ab"), Token("c"), Token("ab"), Token("c"), Token("ab"), Token("c"), Token("!!!"), Position], Count(3))
  {
    var s := "abcabcabc!!!";
    assert s[6..8] == "ab";
    Hit("ab", s, 6);
    BranchListThreeStep7Part0(s);
    BranchListThreeStep8();
  }

  lemma BranchListThreeStep7Part0(s: string)
    requires s == "abcabcabc!!!"
    ensures StepsF(BranchItem.steps, s, 6, [Token("ab"), Token("c"), Token("ab"), Token("c")]) == Outcome(true, 9, [Token("ab"), Token("c"), Token("ab"), Token("c"), Token("ab"), Token("c")], NoValue)
  {
    StepsWhole(BranchItem.steps, s, 6, [Token("ab"), Token("c"), Token("ab"), Token("c")]);
    assert s[6..8] == "ab";
    LitHit(BranchItem.steps, 0, "ab", s, 6, [Token("ab"), Token("c"), Token("ab"), Token("c")], [Token("ab"), Token("c"), Token("ab"), Token("c"), Token("ab")]);
    assert s[8..9] == "c";
    LitHit(BranchItem.steps, 1, "c", s, 8, [Token("ab"), Token("c"), Token("ab"), Token("c"), Token("ab")], [Token("ab"), Token("c"), Token("ab"), Token("c"), Token("ab"), Token("c")]);
    StepsDone(BranchItem.steps, s, 9, [Token("ab"), Token("c"), Token("ab"), Token("c"), Token("ab"), Token("c")]);
  }

  lemma BranchListThreeStep8()
    ensures Resume(BranchList, "abcabcabc!!!", AtTerminator, 9, 3, [Token("ab"), Token("c"), Token("ab"), Token("c"), Token("ab"), Token("c")]) == Outcome(true, 12, [Token("ab"), Token("c"), Token("ab"), Token("c"), Token("ab"), Token("c"), Token("!!!"), Position], Count(3))
  {
    var s := "abcabcabc!!!";
    assert s[9..12] == "!!!";
    Hit("!!!", s, 9);
    BranchListThreeStep8Part0(s);
  }

  lemma BranchListThreeStep8Part0(s: string)
    requires s == "abcabcabc!!!"
    ensures StepsF(TermRule(TestTerm).steps, s, 9, [Token("ab"), Token("c"), Token("ab"), Token("c"), Token("ab"), Token("c")]) == Outcome(true, 12, [Token("ab"), Token("c"), Token("ab"), Token("c"), Token("ab"), Token("c"), Token("!!!"), Position], NoValue)
  {
    StepsWhole(TermRule(TestTerm).steps, s, 9, [Token("ab"), Token("c"), Token("ab"), Token("c"), Token("ab"), Token("c")]);
    assert s[9..12] == "!!!";
    LitHit(TermRule(TestTerm).steps, 0, "!!!", s, 9, [Token("ab"), Token("c"), Token("ab"), Token("c"), Token("ab"), Token("c")], [Token("ab"), Token("c"), Token("ab"), Token("c"), Token("ab"), Token("c"), Token("!!!")]);
    PosStep(TermRule(TestTerm).steps, 1, s, 12, [Token("ab"), Token("c"), Token("ab"), Token("c"), Token("ab"), Token("c"), Token("!!!")], [Token("ab"), Token("c"), Token("ab"), Token("c"), Token("ab"), Token("c"), Token("!!!"), Position]);
    StepsDone(TermRule(TestTerm).steps, s, 12, [Token("ab"), Token("c"), Token("ab"), Token("c"), Token("ab"), Token("c"), Token("!!!"), Position]);
  }

  lemma BranchListThreeVerdict()
    ensures Verify(Outcome(true, 12, [Token("ab"), Token("c"), Token("ab"), Token("c"), Token("ab"), Token("c"), Token("!!!"), Position], Count(3))) == TestResult(Success, Count(3), [Token("ab"), Token("c"), Token("ab"), Token("c"), Token("ab"), Token("c"), Token("!!!"), Position])
  {
    VerifySuccess(Outcome(true, 12, [Token("ab"), Token("c"), Token("ab"), Token("c"), Token("ab"), Token("c"), Token("!!!"), Position], Count(3)));
  }

  /** `.list(branch)` on "abcaabc!!!": recovery stops at the next item, which is counted. */
  lemma BranchListRecoverItem()
    ensures Verify(ListF(BranchList, "abcaabc!!!", 0, [])) == TestResult(RecoveredError, Count(2), [Token("ab"), Token("c"), ExpectedLiteral(3, "ab", 1), ErrorToken("a"), Recovery, Finish, Token("ab"), Token("c"), Token("!!!"), Position])
  {
    BranchListRecoverItemStep0();
    BranchListRecoverItemVerdict();
  }

  lemma BranchListRecoverItemStep0()
    ensures ListF(BranchList, "abcaabc!!!", 0, []) == Outcome(true, 10, [Token("ab"), Token("c"), ExpectedLiteral(3, "ab", 1), ErrorToken("a"), Recovery, Finish, Token("ab"), Token("c"), Token("!!!"), Position], Count(2))
  {
    var s := "abcaabc!!!";
    BranchListRecoverItemStep1();
  }

  lemma BranchListRecoverItemStep1()
    ensures Resume(BranchList, "abcaabc!!!", AtItem, 0, 0, []) == Outcome(true, 10, [Token("ab"), Token("c"), ExpectedLiteral(3, "ab", 1), ErrorToken("a"), Recovery, Finish, Token("ab"), Token("c"), Token("!!!"), Position], Count(2))
  {
    var s := "abcaabc!!!";
    assert s[0..2] == "ab";
    Hit("ab", s, 0);
    BranchListRecoverItemStep1Part0(s);
    BranchListRecoverItemStep2();
  }

  lemma BranchListRecoverItemStep1Part0(s: string)
    requires s == "abcaabc!!!"
    ensures StepsF(BranchItem.steps, s, 0, []) == Outcome(true, 3, [Token("ab"), Token("c")], NoValue)
  {
    StepsWhole(BranchItem.steps, s, 0, []);
    assert s[0..2] == "ab";
    LitHit(BranchItem.steps, 0, "ab", s, 0, [], [Token("ab")]);
    assert s[2..3] == "c";
    LitHit(BranchItem.steps, 1, "c", s, 2, [Token("ab")], [Token("ab"), Token("c")]);
    StepsDone(BranchItem.steps, s, 3, [Token("ab"), Token("c")]);
  }

  lemma BranchListRecoverItemStep2()
    ensures Resume(BranchList, "abcaabc!!!", AtTerminator, 3, 1, [Token("ab"), Token("c")]) == Outcome(true, 10, [Token("ab"), Token("c"), ExpectedLiteral(3, "ab", 1), ErrorToken("a"), Recovery, Finish, Token("ab"), Token("c"), Token("!!!"), Position], Count(2))
  {
    var s := "abcaabc!!!";
    assert s[3..3] == "";
    assert "!!!"[..0] == "";
    Miss("!!!", s, 3, 0, "");
    BranchListRecoverItemStep3();
  }

  lemma BranchListRecoverItemStep3()
    ensures Resume(BranchList, "abcaabc!!!", AtSeparator, 3, 1, [Token("ab"), Token("c")]) == Outcome(true, 10, [Token("ab"), Token("c"), ExpectedLiteral(3, "ab", 1), ErrorToken("a"), Recovery, Finish, Token("ab"), Token("c"), Token("!!!"), Position], Count(2))
  {
    var s := "abcaabc!!!";
    BranchListRecoverItemStep4();
  }

  lemma BranchListRecoverItemStep4()
    ensures Resume(BranchList, "abcaabc!!!", AtItem, 3, 1, [Token("ab"), Token("c")]) == Outcome(true, 10, [Token("ab"), Token("c"), ExpectedLiteral(3, "ab", 1), ErrorToken("a"), Recovery, Finish, Token("ab"), Token("c"), Token("!!!"), Position], Count(2))
  {
    var s := "abcaabc!!!";
    assert s[3..4] == "a";
    assert "ab"[..1] == "a";
    Miss("ab", s, 3, 1, "a");
    BranchListRecoverItemStep4Part0(s);
    BranchListRecoverItemStep5();
  }

  lemma BranchListRecoverItemStep4Part0(s: string)
    requires s == "abcaabc!!!"
    ensures StepsF(BranchItem.steps, s, 3, [Token("ab"), Token("c")]) == Outcome(false, 4, [Token("ab"), Token("c"), ExpectedLiteral(3, "ab", 1), ErrorToken("a")], NoValue)
  {
    StepsWhole(BranchItem.steps, s, 3, [Token("ab"), Token("c")]);
    assert s[3..4] == "a";
    assert "ab"[..1] == "a";
    LitMiss(BranchItem.steps, 0, "ab", s, 3, 1, "a", [Token("ab"), Token("c")], [Token("ab"), Token("c"), ExpectedLiteral(3, "ab", 1), ErrorToken("a")]);
  }

  lemma BranchListRecoverItemStep5()
    ensures Resume(BranchList, "abcaabc!!!", AtRecovery, 4, 1, [Token("ab"), Token("c"), ExpectedLiteral(3, "ab", 1), ErrorToken("a")]) == Outcome(true, 10, [Token("ab"), Token("c"), ExpectedLiteral(3, "ab", 1), ErrorToken("a"), Recovery, Finish, Token("ab"), Token("c"), Token("!!!"), Position], Count(2))
  {
    var s := "abcaabc!!!";
    assert ListStops(BranchList) == ["!!!", "ab"];
    assert s[4..4] == "";
    assert "!!!"[..0] == "";
    Miss("!!!", s, 4, 0, "");
    assert s[4..6] == "ab";
    Hit("ab", s, 4);
    Any2("!!!", "ab", s, 4);
    assert s[4..4] == "";
    assert ";"[..0] == "";
    Miss(";", s, 4, 0, "");
    Any1(";", s, 4);
    ResyncHere(ListStops(BranchList), BranchList.term.limits, s, 4);
    BranchListRecoverItemStep5Part0(s);
    assert [Token("ab"), Token("c"), ExpectedLiteral(3, "ab", 1), ErrorToken("a"), Recovery] + [Finish] == [Token("ab"), Token("c"), ExpectedLiteral(3, "ab", 1), ErrorToken("a"), Recovery, Finish];
    BranchListRecoverItemStep6();
  }

  lemma BranchListRecoverItemStep5Part0(s: string)
    requires s == "abcaabc!!!"
    ensures Skip(s, 4, 4, [Token("ab"), Token("c"), ExpectedLiteral(3, "ab", 1), ErrorToken("a")] + [Recovery]) == [Token("ab"), Token("c"), ExpectedLiteral(3, "ab", 1), ErrorToken("a"), Recovery]
  {
    SkipDone(s, 4, [Token("ab"), Token("c"), ExpectedLiteral(3, "ab", 1), ErrorToken("a")] + [Recovery]);
  }

  lemma BranchListRecoverItemStep6()
    ensures Resume(BranchList, "abcaabc!!!", AtItem, 4, 1, [Token("ab"), Token("c"), ExpectedLiteral(3, "ab", 1), ErrorToken("a"), Recovery, Finish]) == Outcome(true, 10, [Token("ab"), Token("c"), ExpectedLiteral(3, "ab", 1), ErrorToken("a"), Recovery, Finish, Token("ab"), Token("c"), Token("!!!"), Position], Count(2))
  {
    var s := "abcaabc!!!";
    assert s[4..6] == "ab";
    Hit("ab", s, 4);
    BranchListRecoverItemStep6Part0(s);
    BranchListRecoverItemStep7();
  }

  lemma BranchListRecoverItemStep6Part0(s: string)
    requires s == "abcaabc!!!"
    ensures StepsF(BranchItem.steps, s, 4, [Token("ab"), Token("c"), ExpectedLiteral(3, "ab", 1), ErrorToken("a"), Recovery, Finish]) == Outcome(true, 7, [Token("ab"), Token("c"), ExpectedLiteral(3, "ab", 1), ErrorToken("a"), Recovery, Finish, Token("ab"), Token("c")], NoValue)
  {
    StepsWhole(BranchItem.steps, s, 4, [Token("ab"), Token("c"), ExpectedLiteral(3, "ab", 1), ErrorToken("a"), Recovery, Finish]);
    assert s[4..6] == "ab";
    LitHit(BranchItem.steps, 0, "ab", s, 4, [Token("ab"), Token("c"), ExpectedLiteral(3, "ab", 1), ErrorToken("a"), Recovery, Finish], [Token("ab"), Token("c"), ExpectedLiteral(3, "ab", 1), ErrorToken("a"), Recovery, Finish, Token("ab")]);
    assert s[6..7] == "c";
    LitHit(BranchItem.steps, 1, "c", s, 6, [Token("ab"), Token("c"), ExpectedLiteral(3, "ab", 1), ErrorToken("a"), Recovery, Finish, Token("ab")], [Token("ab"), Token("c"), ExpectedLiteral(3, "ab", 1), ErrorToken("a"), Recovery, Finish, Token("ab"), Token("c")]);
    StepsDone(BranchItem.steps, s, 7, [Token("ab"), Token("c"), ExpectedLiteral(3, "ab", 1), ErrorToken("a"), Recovery, Finish, Token("ab"), Token("c")]);
  }

  lemma BranchListRecoverItemStep7()
    ensures Resume(BranchList, "abcaabc!!!", AtTerminator, 7, 2, [Token("ab"), Token("c"), ExpectedLiteral(3, "ab", 1), ErrorToken("a"), Recovery, Finish, Token("ab"), Token("c")]) == Outcome(true, 10, [Token("ab"), Token("c"), ExpectedLiteral(3, "ab", 1), ErrorToken("a"), Recovery, Finish, Token("ab"), Token("c"), Token("!!!"), Position], Count(2))
  {
    var s := "abcaabc!!!";
    assert s[7..10] == "!!!";
    Hit("!!!", s, 7);
    BranchListRecoverItemStep7Part0(s);
  }

  lemma BranchListRecoverItemStep7Part0(s: string)
    requires s == "abcaabc!!!"
    ensures StepsF(TermRule(TestTerm).steps, s, 7, [Token("ab"), Token("c"), ExpectedLiteral(3, "ab", 1), ErrorToken("a"), Recovery, Finish, Token("ab"), Token("c")]) == Outcome(true, 10, [Token("ab"), Token("c"), ExpectedLiteral(3, "ab", 1), ErrorToken("a"), Recovery, Finish, Token("ab"), Token("c"), Token("!!!"), Position], NoValue)
  {
    StepsWhole(TermRule(TestTerm).steps, s, 7, [Token("ab"), Token("c"), ExpectedLiteral(3, "ab", 1), ErrorToken("a"), Recovery, Finish, Token("ab"), Token("c")]);
    assert s[7..10] == "!!!";
    LitHit(TermRule(TestTerm).steps, 0, "!!!", s, 7, [Token("ab"), Token("c"), ExpectedLiteral(3, "ab", 1), ErrorToken("a"), Recovery, Finish, Token("ab"), Token("c")], [Token("ab"), Token("c"), ExpectedLiteral(3, "ab", 1), ErrorToken("a"), Recovery, Finish, Token("ab"), Token("c"), Token("!!!")]);
    PosStep(TermRule(TestTerm).steps, 1, s, 10, [Token("ab"), Token("c"), ExpectedLiteral(3, "ab", 1), ErrorToken("a"), Recovery, Finish, Token("ab"), Token("c"), Token("!!!")], [Token("ab"), Token("c"), ExpectedLiteral(3, "ab", 1), ErrorToken("a"), Recovery, Finish, Token("ab"), Token("c"), Token("!!!"), Position]);
    StepsDone(TermRule(TestTerm).steps, s, 10, [Token("ab"), Token("c"), ExpectedLiteral(3, "ab", 1), ErrorToken("a"), Recovery, Finish, Token("ab"), Token("c"), Token("!!!"), Position]);
  }

  lemma BranchListRecoverItemVerdict()
    ensures Verify(Outcome(true, 10, [Token("ab"), Token("c"), ExpectedLiteral(3, "ab", 1), ErrorToken("a"), Recovery, Finish, Token("ab"), Token("c"), Token("!!!"), Position], Count(2))) == TestResult(RecoveredError, Count(2), [Token("ab"), Token("c"), ExpectedLiteral(3, "ab", 1), ErrorToken("a"), Recovery, Finish, Token("ab"), Token("c"), Token("!!!"), Position])
  {
    VerifyRecovered(Outcome(true, 10, [Token("ab"), Token("c"), ExpectedLiteral(3, "ab", 1), ErrorToken("a"), Recovery, Finish, Token("ab"), Token("c"), Token("!!!"), Position], Count(2)), 2);
  }

  /** `.list(branch)` on "abcaababc!!!": two recoveries. */
  lemma BranchListRecoverItemFailed()
    ensures Verify(ListF(BranchList, "abcaababc!!!", 0, [])) == TestResult(RecoveredError, Count(2), [Token("ab"), Token("c"), ExpectedLiteral(3, "ab", 1), ErrorToken("a"), Recovery, Finish, Token("ab"), ExpectedLiteral(6, "c", 0), Recovery, Finish, Token("ab"), Token("c"), Token("!!!"), Position])
  {
    BranchListRecoverItemFailedStep0();
    BranchListRecoverItemFailedVerdict();
  }

  lemma BranchListRecoverItemFailedStep0()
    ensures ListF(BranchList, "abcaababc!!!", 0, []) == Outcome(true, 12, [Token("ab"), Token("c"), ExpectedLiteral(3, "ab", 1), ErrorToken("a"), Recovery, Finish, Token("ab"), ExpectedLiteral(6, "c", 0), Recovery, Finish, Token("ab"), Token("c"), Token("!!!"), Position], Count(2))
  {
    var s := "abcaababc!!!";
    BranchListRecoverItemFailedStep1();
  }

  lemma BranchListRecoverItemFailedStep1()
    ensures Resume(BranchList, "abcaababc!!!", AtItem, 0, 0, []) == Outcome(true, 12, [Token("ab"), Token("c"), ExpectedLiteral(3, "ab", 1), ErrorToken("a"), Recovery, Finish, Token("ab"), ExpectedLiteral(6, "c", 0), Recovery, Finish, Token("ab"), Token("c"), Token("!!!"), Position], Count(2))
  {
    var s := "abcaababc!!!";
    assert s[0..2] == "ab";
    Hit("ab", s, 0);
    BranchListRecoverItemFailedStep1Part0(s);
    BranchListRecoverItemFailedStep2();
  }

  lemma BranchListRecoverItemFailedStep1Part0(s: string)
    requires s == "abcaababc!!!"
    ensures StepsF(BranchItem.steps, s, 0, []) == Outcome(true, 3, [Token("ab"), Token("c")], NoValue)
  {
    StepsWhole(BranchItem.steps, s, 0, []);
    assert s[0..2] == "ab";
    LitHit(BranchItem.steps, 0, "ab", s, 0, [], [Token("ab")]);
    assert s[2..3] == "c";
    LitHit(BranchItem.steps, 1, "c", s, 2, [Token("ab")], [Token("ab"), Token("c")]);
    StepsDone(BranchItem.steps, s, 3, [Token("ab"), Token("c")]);
  }

  lemma BranchListRecoverItemFailedStep2()
    ensures Resume(BranchList, "abcaababc!!!", AtTerminator, 3, 1, [Token("ab"), Token("c")]) == Outcome(true, 12, [Token("ab"), Token("c"), ExpectedLiteral(3, "ab", 1), ErrorToken("a"), Recovery, Finish, Token("ab"), ExpectedLiteral(6, "c", 0), Recovery, Finish, Token("ab"), Token("c"), Token("!!!"), Position], Count(2))
  {
    var s := "abcaababc!!!";
    assert s[3..3] == "";
    assert "!!!"[..0] == "";
    Miss("!!!", s, 3, 0, "");
    BranchListRecoverItemFailedStep3();
  }

  lemma BranchListRecoverItemFailedStep3()
    ensures Resume(BranchList, "abcaababc!!!", AtSeparator, 3, 1, [Token("ab"), Token("c")]) == Outcome(true, 12, [Token("ab"), Token("c"), ExpectedLiteral(3, "ab", 1), ErrorToken("a"), Recovery, Finish, Token("ab"), ExpectedLiteral(6, "c", 0), Recovery, Finish, Token("ab"), Token("c"), Token("!!!"), Position], Count(2))
  {
    var s := "abcaababc!!!";
    BranchListRecoverItemFailedStep4();
  }

  lemma BranchListRecoverItemFailedStep4()
    ensures Resume(BranchList, "abcaababc!!!", AtItem, 3, 1, [Token("ab"), Token("c")]) == Outcome(true, 12, [Token("ab"), Token("c"), ExpectedLiteral(3, "ab", 1), ErrorToken("a"), Recovery, Finish, Token("ab"), ExpectedLiteral(6, "c", 0), Recovery, Finish, Token("ab"), Token("c"), Token("!!!"), Position], Count(2))
  {
    var s := "abcaababc!!!";
    assert s[3..4] == "a";
    assert "ab"[..1] == "a";
    Miss("ab", s, 3, 1, "a");
    BranchListRecoverItemFailedStep4Part0(s);
    BranchListRecoverItemFailedStep5();
  }

  lemma BranchListRecoverItemFailedStep4Part0(s: string)
    requires s == "abcaababc!!!"
    ensures StepsF(BranchItem.steps, s, 3, [Token("ab"), Token("c")]) == Outcome(false, 4, [Token("ab"), Token("c"), ExpectedLiteral(3, "ab", 1), ErrorToken("a")], NoValue)
  {
    StepsWhole(BranchItem.steps, s, 3, [Token("ab"), Token("c")]);
    assert s[3..4] == "a";
    assert "ab"[..1] == "a";
    LitMiss(BranchItem.steps, 0, "ab", s, 3, 1, "a", [Token("ab"), Token("c")], [Token("ab"), Token("c"), ExpectedLiteral(3, "ab", 1), ErrorToken("a")]);
  }

  lemma BranchListRecoverItemFailedStep5()
    ensures Resume(BranchList, "abcaababc!!!", AtRecovery, 4, 1, [Token("ab"), Token("c"), ExpectedLiteral(3, "ab", 1), ErrorToken("a")]) == Outcome(true, 12, [Token("ab"), Token("c"), ExpectedLiteral(3, "ab", 1), ErrorToken("a"), Recovery, Finish, Token("ab"), ExpectedLiteral(6, "c", 0), Recovery, Finish, Token("ab"), Token("c"), Token("!!!"), Position], Count(2))
  {
    var s := "abcaababc!!!";
    assert ListStops(BranchList) == ["!!!", "ab"];
    assert s[4..4] == "";
    assert "!!!"[..0] == "";
    Miss("!!!", s, 4, 0, "");
    assert s[4..6] == "ab";
    Hit("ab", s, 4);
    Any2("!!!", "ab", s, 4);
    assert s[4..4] == "";
    assert ";"[..0] == "";
    Miss(";", s, 4, 0, "");
    Any1(";", s, 4);
    ResyncHere(ListStops(BranchList), BranchList.term.limits, s, 4);
    BranchListRecoverItemFailedStep5Part0(s);
    assert [Token("ab"), Token("c"), ExpectedLiteral(3, "ab", 1), ErrorToken("a"), Recovery] + [Finish] == [Token("ab"), Token("c"), ExpectedLiteral(3, "ab", 1), ErrorToken("a"), Recovery, Finish];
    BranchListRecoverItemFailedStep6();
  }

  lemma BranchListRecoverItemFailedStep5Part0(s: string)
    requires s == "abcaababc!!!"
    ensures Skip(s, 4, 4, [Token("ab"), Token("c"), ExpectedLiteral(3, "ab", 1), ErrorToken("a")] + [Recovery]) == [Token("ab"), Token("c"), ExpectedLiteral(3, "ab", 1), ErrorToken("a"), Recovery]
  {
    SkipDone(s, 4, [Token("ab"), Token("c"), ExpectedLiteral(3, "ab", 1), ErrorToken("a")] + [Recovery]);
  }

  lemma BranchListRecoverItemFailedStep6()
    ensures Resume(BranchList, "abcaababc!!!", AtItem, 4, 1, [Token("ab"), Token("c"), ExpectedLiteral(3, "ab", 1), ErrorToken("a"), Recovery, Finish]) == Outcome(true, 12, [Token("ab"), Token("c"), ExpectedLiteral(3, "ab", 1), ErrorToken("a"), Recovery, Finish, Token("ab"), ExpectedLiteral(6, "c", 0), Recovery, Finish, Token("ab"), Token("c"), Token("!!!"), Position], Count(2))
  {
    var s := "abcaababc!!!";
    assert s[4..6] == "ab";
    Hit("ab", s, 4);
    BranchListRecoverItemFailedStep6Part0(s);
    BranchListRecoverItemFailedStep7();
  }

  lemma BranchListRecoverItemFailedStep6Part0(s: string)
    requires s == "abcaababc!!!"
    ensures StepsF(BranchItem.steps, s, 4, [Token("ab"), Token("c"), ExpectedLiteral(3, "ab", 1), ErrorToken("a"), Recovery, Finish]) == Outcome(false, 6, [Token("ab"), Token("c"), ExpectedLiteral(3, "ab", 1), ErrorToken("a"), Recovery, Finish, Token("ab"), ExpectedLiteral(6, "c", 0)], NoValue)
  {
    StepsWhole(BranchItem.steps, s, 4, [Token("ab"), Token("c"), ExpectedLiteral(3, "ab", 1), ErrorToken("a"), Recovery, Finish]);
    assert s[4..6] == "ab";
    LitHit(BranchItem.steps, 0, "ab", s, 4, [Token("ab"), Token("c"), ExpectedLiteral(3, "ab", 1), ErrorToken("a"), Recovery, Finish], [Token("ab"), Token("c"), ExpectedLiteral(3, "ab", 1), ErrorToken("a"), Recovery, Finish, Token("ab")]);
    assert s[6..6] == "";
    assert "c"[..0] == "";
    LitMiss(BranchItem.steps, 1, "c", s, 6, 0, "", [Token("ab"), Token("c"), ExpectedLiteral(3, "ab", 1), ErrorToken("a"), Recovery, Finish, Token("ab")], [Token("ab"), Token("c"), ExpectedLiteral(3, "ab", 1), ErrorToken("a"), Recovery, Finish, Token("ab"), ExpectedLiteral(6, "c", 0)]);
  }

  lemma BranchListRecoverItemFailedStep7()
    ensures Resume(BranchList, "abcaababc!!!", AtRecovery, 6, 1, [Token("ab"), Token("c"), ExpectedLiteral(3, "ab", 1), ErrorToken("a"), Recovery, Finish, Token("ab"), ExpectedLiteral(6, "c", 0)]) == Outcome(true, 12, [Token("ab"), Token("c"), ExpectedLiteral(3, "ab", 1), ErrorToken("a"), Recovery, Finish, Token("ab"), ExpectedLiteral(6, "c", 0), Recovery, Finish, Token("ab"), Token("c"), Token("!!!"), Position], Count(2))
  {
    var s := "abcaababc!!!";
    assert ListStops(BranchList) == ["!!!", "ab"];
    assert s[6..6] == "";
    assert "!!!"[..0] == "";
    Miss("!!!", s, 6, 0, "");
    assert s[6..8] == "ab";
    Hit("ab", s, 6);
    Any2("!!!", "ab", s, 6);
    assert s[6..6] == "";
    assert ";"[..0] == "";
    Miss(";", s, 6, 0, "");
    Any1(";", s, 6);
    ResyncHere(ListStops(BranchList), BranchList.term.limits, s, 6);
    BranchListRecoverItemFailedStep7Part0(s);
    assert [Token("ab"), Token("c"), ExpectedLiteral(3, "ab", 1), ErrorToken("a"), Recovery, Finish, Token("ab"), ExpectedLiteral(6, "c", 0), Recovery] + [Finish] == [Token("ab"), Token("c"), ExpectedLiteral(3, "ab", 1), ErrorToken("a"), Recovery, Finish, Token("ab"), ExpectedLiteral(6, "c", 0), Recovery, Finish];
    BranchListRecoverItemFailedStep8();
  }

  lemma BranchListRecoverItemFailedStep7Part0(s: string)
    requires s == "abcaababc!!!"
    ensures Skip(s, 6, 6, [Token("ab"), Token("c"), ExpectedLiteral(3, "ab", 1), ErrorToken("a"), Recovery, Finish, Token("ab"), ExpectedLiteral(6, "c", 0)] + [Recovery]) == [Token("ab"), Token("c"), ExpectedLiteral(3, "ab", 1), ErrorToken("a"), Recovery, Finish, Token("ab"), ExpectedLiteral(6, "c", 0), Recovery]
  {
    SkipDone(s, 6, [Token("ab"), Token("c"), ExpectedLiteral(3, "ab", 1), ErrorToken("a"), Recovery, Finish, Token("ab"), ExpectedLiteral(6, "c", 0)] + [Recovery]);
  }

  lemma BranchListRecoverItemFailedStep8()
    ensures Resume(BranchList, "abcaababc!!!", AtItem, 6, 1, [Token("ab"), Token("c"), ExpectedLiteral(3, "ab", 1), ErrorToken("a"), Recovery, Finish, Token("ab"), ExpectedLiteral(6, "c", 0), Recovery, Finish]) == Outcome(true, 12, [Token("ab"), Token("c"), ExpectedLiteral(3, "ab", 1), ErrorToken("a"), Recovery, Finish, Token("ab"), ExpectedLiteral(6, "c", 0), Recovery, Finish, Token("ab"), Token("c"), Token("!!!"), Position], Count(2))
  {
    var s := "abcaababc!!!";
    assert s[6..8] == "ab";
    Hit("ab", s, 6);
    BranchListRecoverItemFailedStep8Part0(s);
    BranchListRecoverItemFailedStep9();
  }

  lemma BranchListRecoverItemFailedStep8Part0(s: string)
    requires s == "abcaababc!!!"
    ensures StepsF(BranchItem.steps, s, 6, [Token("ab"), Token("c"), ExpectedLiteral(3, "ab", 1), ErrorToken("a"), Recovery, Finish, Token("ab"), ExpectedLiteral(6, "c", 0), Recovery, Finish]) == Outcome(true, 9, [Token("ab"), Token("c"), ExpectedLiteral(3, "ab", 1), ErrorToken("a"), Recovery, Finish, Token("ab"), ExpectedLiteral(6, "c", 0), Recovery, Finish, Token("ab"), Token("c")], NoValue)
  {
    StepsWhole(BranchItem.steps, s, 6, [Token("ab"), Token("c"), ExpectedLiteral(3, "ab", 1), ErrorToken("a"), Recovery, Finish, Token("ab"), ExpectedLiteral(6, "c", 0), Recovery, Finish]);
    assert s[6..8] == "ab";
    LitHit(BranchItem.steps, 0, "ab", s, 6, [Token("ab"), Token("c"), ExpectedLiteral(3, "ab", 1), ErrorToken("a"), Recovery, Finish, Token("ab"), ExpectedLiteral(6, "c", 0), Recovery, Finish], [Token("ab"), Token("c"), ExpectedLiteral(3, "ab", 1), ErrorToken("a"), Recovery, Finish, Token("ab"), ExpectedLiteral(6, "c", 0), Recovery, Finish, Token("ab")]);
    assert s[8..9] == "c";
    LitHit(BranchItem.steps, 1, "c", s, 8, [Token("ab"), Token("c"), ExpectedLiteral(3, "ab", 1), ErrorToken("a"), Recovery, Finish, Token("ab"), ExpectedLiteral(6, "c", 0), Recovery, Finish, Token("ab")], [Token("ab"), Token("c"), ExpectedLiteral(3, "ab", 1), ErrorToken("a"), Recovery, Finish, Token("ab"), ExpectedLiteral(6, "c", 0), Recovery, Finish, Token("ab"), Token("c")]);
    StepsDone(BranchItem.steps, s, 9, [Token("ab"), Token("c"), ExpectedLiteral(3, "ab", 1), ErrorToken("a"), Recovery, Finish, Token("ab"), ExpectedLiteral(6, "c", 0), Recovery, Finish, Token("ab"), Token("c")]);
  }

  lemma BranchListRecoverItemFailedStep9()
    ensures Resume(BranchList, "abcaababc!!!", AtTerminator, 9, 2, [Token("ab"), Token("c"), ExpectedLiteral(3, "ab", 1), ErrorToken("a"), Recovery, Finish, Token("ab"), ExpectedLiteral(6, "c", 0), Recovery, Finish, Token("ab"), Token("c")]) == Outcome(true, 12, [Token("ab"), Token("c"), ExpectedLiteral(3, "ab", 1), ErrorToken("a"), Recovery, Finish, Token("ab"), ExpectedLiteral(6, "c", 0), Recovery, Finish, Token("ab"), Token("c"), Token("!!!"), Position], Count(2))
  {
    var s := "abcaababc!!!";
    assert s[9..12] == "!!!";
    Hit("!!!", s, 9);
    BranchListRecoverItemFailedStep9Part0(s);
  }

  lemma BranchListRecoverItemFailedStep9Part0(s: string)
    requires s == "abcaababc!!!"
    ensures StepsF(TermRule(TestTerm).steps, s, 9, [Token("ab"), Token("c"), ExpectedLiteral(3, "ab", 1), ErrorToken("a"), Recovery, Finish, Token("ab"), ExpectedLiteral(6, "c", 0), Recovery, Finish, Token("ab"), Token("c")]) == Outcome(true, 12, [Token("ab"), Token("c"), ExpectedLiteral(3, "ab", 1), ErrorToken("a"), Recovery, Finish, Token("ab"), ExpectedLiteral(6, "c", 0), Recovery, Finish, Token("ab"), Token("c"), Token("!!!"), Position], NoValue)
  {
    StepsWhole(TermRule(TestTerm).steps, s, 9, [Token("ab"), Token("c"), ExpectedLiteral(3, "ab", 1), ErrorToken("a"), Recovery, Finish, Token("ab"), ExpectedLiteral(6, "c", 0), Recovery, Finish, Token("ab"), Token("c")]);
    assert s[9..12] == "!!!";
    LitHit(TermRule(TestTerm).steps, 0, "!!!", s, 9, [Token("ab"), Token("c"), ExpectedLiteral(3, "ab", 1), ErrorToken("a"), Recovery, Finish, Token("ab"), ExpectedLiteral(6, "c", 0), Recovery, Finish, Token("ab"), Token("c")], [Token("ab"), Token("c"), ExpectedLiteral(3, "ab", 1), ErrorToken("a"), Recovery, Finish, Token("ab"), ExpectedLiteral(6, "c", 0), Recovery, Finish, Token("ab"), Token("c"), Token("!!!")]);
    PosStep(TermRule(TestTerm).steps, 1, s, 12, [Token("ab"), Token("c"), ExpectedLiteral(3, "ab", 1), ErrorToken("a"), Recovery, Finish, Token("ab"), ExpectedLiteral(6, "c", 0), Recovery, Finish, Token("ab"), Token("c"), Token("!!!")], [Token("ab"), Token("c"), ExpectedLiteral(3, "ab", 1), ErrorToken("a"), Recovery, Finish, Token("ab"), ExpectedLiteral(6, "c", 0), Recovery, Finish, Token("ab"), Token("c"), Token("!!!"), Position]);
    StepsDone(TermRule(TestTerm).steps, s, 12, [Token("ab"), Token("c"), ExpectedLiteral(3, "ab", 1), ErrorToken("a"), Recovery, Finish, Token("ab"), ExpectedLiteral(6, "c", 0), Recovery, Finish, Token("ab"), Token("c"), Token("!!!"), Position]);
  }

  lemma BranchListRecoverItemFailedVerdict()
    ensures Verify(Outcome(true, 12, [Token("ab"), Token("c"), ExpectedLiteral(3, "ab", 1), ErrorToken("a"), Recovery, Finish, Token("ab"), ExpectedLiteral(6, "c", 0), Recovery, Finish, Token("ab"), Token("c"), Token("!!!"), Position], Count(2))) == TestResult(RecoveredError, Count(2), [Token("ab"), Token("c"), ExpectedLiteral(3, "ab", 1), ErrorToken("a"), Recovery, Finish, Token("ab"), ExpectedLiteral(6, "c", 0), Recovery, Finish, Token("ab"), Token("c"), Token("!!!"), Position])
  {
    VerifyRecovered(Outcome(true, 12, [Token("ab"), Token("c"), ExpectedLiteral(3, "ab", 1), ErrorToken("a"), Recovery, Finish, Token("ab"), ExpectedLiteral(6, "c", 0), Recovery, Finish, Token("ab"), Token("c"), Token("!!!"), Position], Count(2)), 2);
  }

  /** `.list(branch)` on "abcabd!!!". */
  lemma BranchListRecoverTerminator()
    ensures Verify(ListF(BranchList, "abcabd!!!", 0, [])) == TestResult(RecoveredError, Count(1), [Token("ab"), Token("c"), Token("ab"), ExpectedLiteral(5, "c", 0), Recovery, ErrorToken("d"), Finish, Token("!!!"), Position])
  {
    BranchListRecoverTerminatorStep0();
    BranchListRecoverTerminatorVerdict();
  }

  lemma BranchListRecoverTerminatorStep0()
    ensures ListF(BranchList, "abcabd!!!", 0, []) == Outcome(true, 9, [Token("ab"), Token("c"), Token("ab"), ExpectedLiteral(5, "c", 0), Recovery, ErrorToken("d"), Finish, Token("!!!"), Position], Count(1))
  {
    var s := "abcabd!!!";
    BranchListRecoverTerminatorStep1();
  }

  lemma BranchListRecoverTerminatorStep1()
    ensures Resume(BranchList, "abcabd!!!", AtItem, 0, 0, []) == Outcome(true, 9, [Token("ab"), Token("c"), Token("ab"), ExpectedLiteral(5, "c", 0), Recovery, ErrorToken("d"), Finish, Token("!!!"), Position], Count(1))
  {
    var s := "abcabd!!!";
    assert s[0..2] == "ab";
    Hit("ab", s, 0);
    BranchListRecoverTerminatorStep1Part0(s);
    BranchListRecoverTerminatorStep2();
  }

  lemma BranchListRecoverTerminatorStep1Part0(s: string)
    requires s == "abcabd!!!"
    ensures StepsF(BranchItem.steps, s, 0, []) == Outcome(true, 3, [Token("ab"), Token("c")], NoValue)
  {
    StepsWhole(BranchItem.steps, s, 0, []);
    assert s[0..2] == "ab";
    LitHit(BranchItem.steps, 0, "ab", s, 0, [], [Token("ab")]);
    assert s[2..3] == "c";
    LitHit(BranchItem.steps, 1, "c", s, 2, [Token("ab")], [Token("ab"), Token("c")]);
    StepsDone(BranchItem.steps, s, 3, [Token("ab"), Token("c")]);
  }

  lemma BranchListRecoverTerminatorStep2()
    ensures Resume(BranchList, "abcabd!!!", AtTerminator, 3, 1, [Token("ab"), Token("c")]) == Outcome(true, 9, [Token("ab"), Token("c"), Token("ab"), ExpectedLiteral(5, "c", 0), Recovery, ErrorToken("d"), Finish, Token("!!!"), Position], Count(1))
  {
    var s := "abcabd!!!";
    assert s[3..3] == "";
    assert "!!!"[..0] == "";
    Miss("!!!", s, 3, 0, "");
    BranchListRecoverTerminatorStep3();
  }

  lemma BranchListRecoverTerminatorStep3()
    ensures Resume(BranchList, "abcabd!!!", AtSeparator, 3, 1, [Token("ab"), Token("c")]) == Outcome(true, 9, [Token("ab"), Token("c"), Token("ab"), ExpectedLiteral(5, "c", 0), Recovery, ErrorToken("d"), Finish, Token("!!!"), Position], Count(1))
  {
    var s := "abcabd!!!";
    BranchListRecoverTerminatorStep4();
  }

  lemma BranchListRecoverTerminatorStep4()
    ensures Resume(BranchList, "abcabd!!!", AtItem, 3, 1, [Token("ab"), Token("c")]) == Outcome(true, 9, [Token("ab"), Token("c"), Token("ab"), ExpectedLiteral(5, "c", 0), Recovery, ErrorToken("d"), Finish, Token("!!!"), Position], Count(1))
  {
    var s := "abcabd!!!";
    assert s[3..5] == "ab";
    Hit("ab", s, 3);
    BranchListRecoverTerminatorStep4Part0(s);
    BranchListRecoverTerminatorStep5();
  }

  lemma BranchListRecoverTerminatorStep4Part0(s: string)
    requires s == "abcabd!!!"
    ensures StepsF(BranchItem.steps, s, 3, [Token("ab"), Token("c")]) == Outcome(false, 5, [Token("ab"), Token("c"), Token("ab"), ExpectedLiteral(5, "c", 0)], NoValue)
  {
    StepsWhole(BranchItem.steps, s, 3, [Token("ab"), Token("c")]);
    assert s[3..5] == "ab";
    LitHit(BranchItem.steps, 0, "ab", s, 3, [Token("ab"), Token("c")], [Token("ab"), Token("c"), Token("ab")]);
    assert s[5..5] == "";
    assert "c"[..0] == "";
    LitMiss(BranchItem.steps, 1, "c", s, 5, 0, "", [Token("ab"), Token("c"), Token("ab")], [Token("ab"), Token("c"), Token("ab"), ExpectedLiteral(5, "c", 0)]);
  }

  lemma BranchListRecoverTerminatorStep5()
    ensures Resume(BranchList, "abcabd!!!", AtRecovery, 5, 1, [Token("ab"), Token("c"), Token("ab"), ExpectedLiteral(5, "c", 0)]) == Outcome(true, 9, [Token("ab"), Token("c"), Token("ab"), ExpectedLiteral(5, "c", 0), Recovery, ErrorToken("d"), Finish, Token("!!!"), Position], Count(1))
  {
    var s := "abcabd!!!";
    assert ListStops(BranchList) == ["!!!", "ab"];
    assert s[5..5] == "";
    assert "!!!"[..0] == "";
    Miss("!!!", s, 5, 0, "");
    assert s[5..5] == "";
    assert "ab"[..0] == "";
    Miss("ab", s, 5, 0, "");
    Any2("!!!", "ab", s, 5);
    assert s[5..5] == "";
    assert ";"[..0] == "";
    Miss(";", s, 5, 0, "");
    Any1(";", s, 5);
    ResyncNext(ListStops(BranchList), BranchList.term.limits, s, 5);
    assert s[6..9] == "!!!";
    Hit("!!!", s, 6);
    assert s[6..6] == "";
    assert "ab"[..0] == "";
    Miss("ab", s, 6, 0, "");
    Any2("!!!", "ab", s, 6);
    assert s[6..6] == "";
    assert ";"[..0] == "";
    Miss(";", s, 6, 0, "");
    Any1(";", s, 6);
    ResyncHere(ListStops(BranchList), BranchList.term.limits, s, 6);
    BranchListRecoverTerminatorStep5Part0(s);
    BranchListRecoverTerminatorStep5Part1(s);
  }

  lemma BranchListRecoverTerminatorStep5Part0(s: string)
    requires s == "abcabd!!!"
    ensures Skip(s, 5, 6, [Token("ab"), Token("c"), Token("ab"), ExpectedLiteral(5, "c", 0)] + [Recovery]) == [Token("ab"), Token("c"), Token("ab"), ExpectedLiteral(5, "c", 0), Recovery, ErrorToken("d")]
  {
    SkipStep(s, 5, 6, [Token("ab"), Token("c"), Token("ab"), ExpectedLiteral(5, "c", 0)] + [Recovery], [Token("ab"), Token("c"), Token("ab"), ExpectedLiteral(5, "c", 0), Recovery, ErrorToken("d")]);
    SkipDone(s, 6, [Token("ab"), Token("c"), Token("ab"), ExpectedLiteral(5, "c", 0), Recovery, ErrorToken("d")]);
  }

  lemma BranchListRecoverTerminatorStep5Part1(s: string)
    requires s == "abcabd!!!"
    ensures StepsF(TermRule(TestTerm).steps, s, 6, [Token("ab"), Token("c"), Token("ab"), ExpectedLiteral(5, "c", 0), Recovery, ErrorToken("d")] + [Finish]) == Outcome(true, 9, [Token("ab"), Token("c"), Token("ab"), ExpectedLiteral(5, "c", 0), Recovery, ErrorToken("d"), Finish, Token("!!!"), Position], NoValue)
  {
    StepsWhole(TermRule(TestTerm).steps, s, 6, [Token("ab"), Token("c"), Token("ab"), ExpectedLiteral(5, "c", 0), Recovery, ErrorToken("d")] + [Finish]);
    assert s[6..9] == "!!!";
    LitHit(TermRule(TestTerm).steps, 0, "!!!", s, 6, [Token("ab"), Token("c"), Token("ab"), ExpectedLiteral(5, "c", 0), Recovery, ErrorToken("d")] + [Finish], [Token("ab"), Token("c"), Token("ab"), ExpectedLiteral(5, "c", 0), Recovery, ErrorToken("d"), Finish, Token("!!!")]);
    PosStep(TermRule(TestTerm).steps, 1, s, 9, [Token("ab"), Token("c"), Token("ab"), ExpectedLiteral(5, "c", 0), Recovery, ErrorToken("d"), Finish, Token("!!!")], [Token("ab"), Token("c"), Token("ab"), ExpectedLiteral(5, "c", 0), Recovery, ErrorToken("d"), Finish, Token("!!!"), Position]);
    StepsDone(TermRule(TestTerm).steps, s, 9, [Token("ab"), Token("c"), Token("ab"), ExpectedLiteral(5, "c", 0), Recovery, ErrorToken("d"), Finish, Token("!!!"), Position]);
  }

  lemma BranchListRecoverTerminatorVerdict()
    ensures Verify(Outcome(true, 9, [Token("ab"), Token("c"), Token("ab"), ExpectedLiteral(5, "c", 0), Recovery, ErrorToken("d"), Finish, Token("!!!"), Position], Count(1))) == TestResult(RecoveredError, Count(1), [Token("ab"), Token("c"), Token("ab"), ExpectedLiteral(5, "c", 0), Recovery, ErrorToken("d"), Finish, Token("!!!"), Position])
  {
    VerifyRecovered(Outcome(true, 9, [Token("ab"), Token("c"), Token("ab"), ExpectedLiteral(5, "c", 0), Recovery, ErrorToken("d"), Finish, Token("!!!"), Position], Count(1)), 3);
  }

  /** `.list(branch)` on "abcabd;abc!!!": recovery cancels at the limit, which is not consumed. */
  lemma BranchListRecoverLimit()
    ensures Verify(ListF(BranchList, "abcabd;abc!!!", 0, [])) == TestResult(FatalError, Count(1), [Token("ab"), Token("c"), Token("ab"), ExpectedLiteral(5, "c", 0), Recovery, ErrorToken("d"), Cancel, Cancel])
  {
    BranchListRecoverLimitStep0();
    BranchListRecoverLimitVerdict();
  }

  lemma BranchListRecoverLimitStep0()
    ensures ListF(BranchList, "abcabd;abc!!!", 0, []) == Outcome(false, 6, [Token("ab"), Token("c"), Token("ab"), ExpectedLiteral(5, "c", 0), Recovery, ErrorToken("d"), Cancel], Count(1))
  {
    var s := "abcabd;abc!!!";
    BranchListRecoverLimitStep1();
  }

  lemma BranchListRecoverLimitStep1()
    ensures Resume(BranchList, "abcabd;abc!!!", AtItem, 0, 0, []) == Outcome(false, 6, [Token("ab"), Token("c"), Token("ab"), ExpectedLiteral(5, "c", 0), Recovery, ErrorToken("d"), Cancel], Count(1))
  {
    var s := "abcabd;abc!!!";
    assert s[0..2] == "ab";
    Hit("ab", s, 0);
    BranchListRecoverLimitStep1Part0(s);
    BranchListRecoverLimitStep2();
  }

  lemma BranchListRecoverLimitStep1Part0(s: string)
    requires s == "abcabd;abc!!!"
    ensures StepsF(BranchItem.steps, s, 0, []) == Outcome(true, 3, [Token("ab"), Token("c")], NoValue)
  {
    StepsWhole(BranchItem.steps, s, 0, []);
    assert s[0..2] == "ab";
    LitHit(BranchItem.steps, 0, "ab", s, 0, [], [Token("ab")]);
    assert s[2..3] == "c";
    LitHit(BranchItem.steps, 1, "c", s, 2, [Token("ab")], [Token("ab"), Token("c")]);
    StepsDone(BranchItem.steps, s, 3, [Token("ab"), Token("c")]);
  }

  lemma BranchListRecoverLimitStep2()
    ensures Resume(BranchList, "abcabd;abc!!!", AtTerminator, 3, 1, [Token("ab"), Token("c")]) == Outcome(false, 6, [Token("ab"), Token("c"), Token("ab"), ExpectedLiteral(5, "c", 0), Recovery, ErrorToken("d"), Cancel], Count(1))
  {
    var s := "abcabd;abc!!!";
    assert s[3..3] == "";
    assert "!!!"[..0] == "";
    Miss("!!!", s, 3, 0, "");
    BranchListRecoverLimitStep3();
  }

  lemma BranchListRecoverLimitStep3()
    ensures Resume(BranchList, "abcabd;abc!!!", AtSeparator, 3, 1, [Token("ab"), Token("c")]) == Outcome(false, 6, [Token("ab"), Token("c"), Token("ab"), ExpectedLiteral(5, "c", 0), Recovery, ErrorToken("d"), Cancel], Count(1))
  {
    var s := "abcabd;abc!!!";
    BranchListRecoverLimitStep4();
  }

  lemma BranchListRecoverLimitStep4()
    ensures Resume(BranchList, "abcabd;abc!!!", AtItem, 3, 1, [Token("ab"), Token("c")]) == Outcome(false, 6, [Token("ab"), Token("c"), Token("ab"), ExpectedLiteral(5, "c", 0), Recovery, ErrorToken("d"), Cancel], Count(1))
  {
    var s := "abcabd;abc!!!";
    assert s[3..5] == "ab";
    Hit("ab", s, 3);
    BranchListRecoverLimitStep4Part0(s);
    BranchListRecoverLimitStep5();
  }

  lemma BranchListRecoverLimitStep4Part0(s: string)
    requires s == "abcabd;abc!!!"
    ensures StepsF(BranchItem.steps, s, 3, [Token("ab"), Token("c")]) == Outcome(false, 5, [Token("ab"), Token("c"), Token("ab"), ExpectedLiteral(5, "c", 0)], NoValue)
  {
    StepsWhole(BranchItem.steps, s, 3, [Token("ab"), Token("c")]);
    assert s[3..5] == "ab";
    LitHit(BranchItem.steps, 0, "ab", s, 3, [Token("ab"), Token("c")], [Token("ab"), Token("c"), Token("ab")]);
    assert s[5..5] == "";
    assert "c"[..0] == "";
    LitMiss(BranchItem.steps, 1, "c", s, 5, 0, "", [Token("ab"), Token("c"), Token("ab")], [Token("ab"), Token("c"), Token("ab"), ExpectedLiteral(5, "c", 0)]);
  }

  lemma BranchListRecoverLimitStep5()
    ensures Resume(BranchList, "abcabd;abc!!!", AtRecovery, 5, 1, [Token("ab"), Token("c"), Token("ab"), ExpectedLiteral(5, "c", 0)]) == Outcome(false, 6, [Token("ab"), Token("c"), Token("ab"), ExpectedLiteral(5, "c", 0), Recovery, ErrorToken("d"), Cancel], Count(1))
  {
    var s := "abcabd;abc!!!";
    assert ListStops(BranchList) == ["!!!", "ab"];
    assert s[5..5] == "";
    assert "!!!"[..0] == "";
    Miss("!!!", s, 5, 0, "");
    assert s[5..5] == "";
    assert "ab"[..0] == "";
    Miss("ab", s, 5, 0, "");
    Any2("!!!", "ab", s, 5);
    assert s[5..5] == "";
    assert ";"[..0] == "";
    Miss(";", s, 5, 0, "");
    Any1(";", s, 5);
    ResyncNext(ListStops(BranchList), BranchList.term.limits, s, 5);
    assert s[6..6] == "";
    assert "!!!"[..0] == "";
    Miss("!!!", s, 6, 0, "");
    assert s[6..6] == "";
    assert "ab"[..0] == "";
    Miss("ab", s, 6, 0, "");
    Any2("!!!", "ab", s, 6);
    assert s[6..7] == ";";
    Hit(";", s, 6);
    Any1(";", s, 6);
    ResyncHere(ListStops(BranchList), BranchList.term.limits, s, 6);
    BranchListRecoverLimitStep5Part0(s);
  }

  lemma BranchListRecoverLimitStep5Part0(s: string)
    requires s == "abcabd;abc!!!"
    ensures Skip(s, 5, 6, [Token("ab"), Token("c"), Token("ab"), ExpectedLiteral(5, "c", 0)] + [Recovery]) == [Token("ab"), Token("c"), Token("ab"), ExpectedLiteral(5, "c", 0), Recovery, ErrorToken("d")]
  {
    SkipStep(s, 5, 6, [Token("ab"), Token("c"), Token("ab"), ExpectedLiteral(5, "c", 0)] + [Recovery], [Token("ab"), Token("c"), Token("ab"), ExpectedLiteral(5, "c", 0), Recovery, ErrorToken("d")]);
    SkipDone(s, 6, [Token("ab"), Token("c"), Token("ab"), ExpectedLiteral(5, "c", 0), Recovery, ErrorToken("d")]);
  }

  lemma BranchListRecoverLimitVerdict()
    ensures Verify(Outcome(false, 6, [Token("ab"), Token("c"), Token("ab"), ExpectedLiteral(5, "c", 0), Recovery, ErrorToken("d"), Cancel], Count(1))) == TestResult(FatalError, Count(1), [Token("ab"), Token("c"), Token("ab"), ExpectedLiteral(5, "c", 0), Recovery, ErrorToken("d"), Cancel, Cancel])
  {
    VerifyFatal(Outcome(false, 6, [Token("ab"), Token("c"), Token("ab"), ExpectedLiteral(5, "c", 0), Recovery, ErrorToken("d"), Cancel], Count(1)), [Token("ab"), Token("c"), Token("ab"), ExpectedLiteral(5, "c", 0), Recovery, ErrorToken("d"), Cancel, Cancel]);
  }

  /** `.list(rule)` on "!!!". */
  lemma RuleListTerminatorOnly()
    ensures Verify(ListF(RuleList, "!!!", 0, [])) == TestResult(RecoveredError, Count(0), [ExpectedLiteral(0, "ab", 0), Recovery, Finish, Token("!!!"), Position])
  {
    RuleListTerminatorOnlyStep0();
    RuleListTerminatorOnlyVerdict();
  }

  lemma RuleListTerminatorOnlyStep0()
    ensures ListF(RuleList, "!!!", 0, []) == Outcome(true, 3, [ExpectedLiteral(0, "ab", 0), Recovery, Finish, Token("!!!"), Position], Count(0))
  {
    var s := "!!!";
    RuleListTerminatorOnlyStep1();
  }

  lemma RuleListTerminatorOnlyStep1()
    ensures Resume(RuleList, "!!!", AtItem, 0, 0, []) == Outcome(true, 3, [ExpectedLiteral(0, "ab", 0), Recovery, Finish, Token("!!!"), Position], Count(0))
  {
    var s := "!!!";
    assert s[0..0] == "";
    assert "ab"[..0] == "";
    Miss("ab", s, 0, 0, "");
    RuleListTerminatorOnlyStep1Part0(s);
    RuleListTerminatorOnlyStep2();
  }

  lemma RuleListTerminatorOnlyStep1Part0(s: string)
    requires s == "!!!"
    ensures StepsF(RuleItem.steps, s, 0, []) == Outcome(false, 0, [ExpectedLiteral(0, "ab", 0)], NoValue)
  {
    StepsWhole(RuleItem.steps, s, 0, []);
    assert s[0..0] == "";
    assert "ab"[..0] == "";
    LitMiss(RuleItem.steps, 0, "ab", s, 0, 0, "", [], [ExpectedLiteral(0, "ab", 0)]);
  }

  lemma RuleListTerminatorOnlyStep2()
    ensures Resume(RuleList, "!!!", AtRecovery, 0, 0, [ExpectedLiteral(0, "ab", 0)]) == Outcome(true, 3, [ExpectedLiteral(0, "ab", 0), Recovery, Finish, Token("!!!"), Position], Count(0))
  {
    var s := "!!!";
    assert ListStops(RuleList) == ["!!!"];
    assert s[0..3] == "!!!";
    Hit("!!!", s, 0);
    Any1("!!!", s, 0);
    assert s[0..0] == "";
    assert ";"[..0] == "";
    Miss(";", s, 0, 0, "");
    Any1(";", s, 0);
    ResyncHere(ListStops(RuleList), RuleList.term.limits, s, 0);
    RuleListTerminatorOnlyStep2Part0(s);
    RuleListTerminatorOnlyStep2Part1(s);
  }

  lemma RuleListTerminatorOnlyStep2Part0(s: string)
    requires s == "!!!"
    ensures Skip(s, 0, 0, [ExpectedLiteral(0, "ab", 0)] + [Recovery]) == [ExpectedLiteral(0, "ab", 0), Recovery]
  {
    SkipDone(s, 0, [ExpectedLiteral(0, "ab", 0)] + [Recovery]);
  }

  lemma RuleListTerminatorOnlyStep2Part1(s: string)
    requires s == "!!!"
    ensures StepsF(TermRule(TestTerm).steps, s, 0, [ExpectedLiteral(0, "ab", 0), Recovery] + [Finish]) == Outcome(true, 3, [ExpectedLiteral(0, "ab", 0), Recovery, Finish, Token("!!!"), Position], NoValue)
  {
    StepsWhole(TermRule(TestTerm).steps, s, 0, [ExpectedLiteral(0, "ab", 0), Recovery] + [Finish]);
    assert s[0..3] == "!!!";
    LitHit(TermRule(TestTerm).steps, 0, "!!!", s, 0, [ExpectedLiteral(0, "ab", 0), Recovery] + [Finish], [ExpectedLiteral(0, "ab", 0), Recovery, Finish, Token("!!!")]);
    PosStep(TermRule(TestTerm).steps, 1, s, 3, [ExpectedLiteral(0, "ab", 0), Recovery, Finish, Token("!!!")], [ExpectedLiteral(0, "ab", 0), Recovery, Finish, Token("!!!"), Position]);
    StepsDone(TermRule(TestTerm).steps, s, 3, [ExpectedLiteral(0, "ab", 0), Recovery, Finish, Token("!!!"), Position]);
  }

  lemma RuleListTerminatorOnlyVerdict()
    ensures Verify(Outcome(true, 3, [ExpectedLiteral(0, "ab", 0), Recovery, Finish, Token("!!!"), Position], Count(0))) == TestResult(RecoveredError, Count(0), [ExpectedLiteral(0, "ab", 0), Recovery, Finish, Token("!!!"), Position])
  {
    VerifyRecovered(Outcome(true, 3, [ExpectedLiteral(0, "ab", 0), Recovery, Finish, Token("!!!"), Position], Count(0)), 0);
  }

  /** `.list(rule)` on "abcabc!!!". */
  lemma RuleListTwo()
    ensures Verify(ListF(RuleList, "abcabc!!!", 0, [])) == TestResult(Success, Count(2), [Token("ab"), Token("c"), Token("ab"), Token("c"), Token("!!!"), Position])
  {
    RuleListTwoStep0();
    RuleListTwoVerdict();
  }

  lemma RuleListTwoStep0()
    ensures ListF(RuleList, "abcabc!!!", 0, []) == Outcome(true, 9, [Token("ab"), Token("c"), Token("ab"), Token("c"), Token("!!!"), Position], Count(2))
  {
    var s := "abcabc!!!";
    RuleListTwoStep1();
  }

  lemma RuleListTwoStep1()
    ensures Resume(RuleList, "abcabc!!!", AtItem, 0, 0, []) == Outcome(true, 9, [Token("ab"), Token("c"), Token("ab"), Token("c"), Token("!!!"), Position], Count(2))
  {
    var s := "abcabc!!!";
    assert s[0..2] == "ab";
    Hit("ab", s, 0);
    RuleListTwoStep1Part0(s);
    RuleListTwoStep2();
  }

  lemma RuleListTwoStep1Part0(s: string)
    requires s == "abcabc!!!"
    ensures StepsF(RuleItem.steps, s, 0, []) == Outcome(true, 3, [Token("ab"), Token("c")], NoValue)
  {
    StepsWhole(RuleItem.steps, s, 0, []);
    assert s[0..2] == "ab";
    LitHit(RuleItem.steps, 0, "ab", s, 0, [], [Token("ab")]);
    assert s[2..3] == "c";
    LitHit(RuleItem.steps, 1, "c", s, 2, [Token("ab")], [Token("ab"), Token("c")]);
    StepsDone(RuleItem.steps, s, 3, [Token("ab"), Token("c")]);
  }

  lemma RuleListTwoStep2()
    ensures Resume(RuleList, "abcabc!!!", AtTerminator, 3, 1, [Token("ab"), Token("c")]) == Outcome(true, 9, [Token("ab"), Token("c"), Token("ab"), Token("c"), Token("!!!"), Position], Count(2))
  {
    var s := "abcabc!!!";
    assert s[3..3] == "";
    assert "!!!"[..0] == "";
    Miss("!!!", s, 3, 0, "");
    RuleListTwoStep3();
  }

  lemma RuleListTwoStep3()
    ensures Resume(RuleList, "abcabc!!!", AtSeparator, 3, 1, [Token("ab"), Token("c")]) == Outcome(true, 9, [Token("ab"), Token("c"), Token("ab"), Token("c"), Token("!!!"), Position], Count(2))
  {
    var s := "abcabc!!!";
    RuleListTwoStep4();
  }

  lemma RuleListTwoStep4()
    ensures Resume(RuleList, "abcabc!!!", AtItem, 3, 1, [Token("ab"), Token("c")]) == Outcome(true, 9, [Token("ab"), Token("c"), Token("ab"), Token("c"), Token("!!!"), Position], Count(2))
  {
    var s := "abcabc!!!";
    assert s[3..5] == "ab";
    Hit("ab", s, 3);
    RuleListTwoStep4Part0(s);
    RuleListTwoStep5();
  }

  lemma RuleListTwoStep4Part0(s: string)
    requires s == "abcabc!!!"
    ensures StepsF(RuleItem.steps, s, 3, [Token("ab"), Token("c")]) == Outcome(true, 6, [Token("ab"), Token("c"), Token("ab"), Token("c")], NoValue)
  {
    StepsWhole(RuleItem.steps, s, 3, [Token("ab"), Token("c")]);
    assert s[3..5] == "ab";
    LitHit(RuleItem.steps, 0, "ab", s, 3, [Token("ab"), Token("c")], [Token("ab"), Token("c"), Token("ab")]);
    assert s[5..6] == "c";
    LitHit(RuleItem.steps, 1, "c", s, 5, [Token("ab"), Token("c"), Token("ab")], [Token("ab"), Token("c"), Token("ab"), Token("c")]);
    StepsDone(RuleItem.steps, s, 6, [Token("ab"), Token("c"), Token("ab"), Token("c")]);
  }

  lemma RuleListTwoStep5()
    ensures Resume(RuleList, "abcabc!!!", AtTerminator, 6, 2, [Token("ab"), Token("c"), Token("ab"), Token("c")]) == Outcome(true, 9, [Token("ab"), Token("c"), Token("ab"), Token("c"), Token("!!!"), Position], Count(2))
  {
    var s := "abcabc!!!";
    assert s[6..9] == "!!!";
    Hit("!!!", s, 6);
    RuleListTwoStep5Part0(s);
  }

  lemma RuleListTwoStep5Part0(s: string)
    requires s == "abcabc!!!"
    ensures StepsF(TermRule(TestTerm).steps, s, 6, [Token("ab"), Token("c"), Token("ab"), Token("c")]) == Outcome(true, 9, [Token("ab"), Token("c"), Token("ab"), Token("c"), Token("!!!"), Position], NoValue)
  {
    StepsWhole(TermRule(TestTerm).steps, s, 6, [Token("ab"), Token("c"), Token("ab"), Token("c")]);
    assert s[6..9] == "!!!";
    LitHit(TermRule(TestTerm).steps, 0, "!!!", s, 6, [Token("ab"), Token("c"), Token("ab"), Token("c")], [Token("ab"), Token("c"), Token("ab"), Token("c"), Token("!!!")]);
    PosStep(TermRule(TestTerm).steps, 1, s, 9, [Token("ab"), Token("c"), Token("ab"), Token("c"), Token("!!!")], [Token("ab"), Token("c"), Token("ab"), Token("c"), Token("!!!"), Position]);
    StepsDone(TermRule(TestTerm).steps, s, 9, [Token("ab"), Token("c"), Token("ab"), Token("c"), Token("!!!"), Position]);
  }

  lemma RuleListTwoVerdict()
    ensures Verify(Outcome(true, 9, [Token("ab"), Token("c"), Token("ab"), Token("c"), Token("!!!"), Position], Count(2))) == TestResult(Success, Count(2), [Token("ab"), Token("c"), Token("ab"), Token("c"), Token("!!!"), Position])
  {
    VerifySuccess(Outcome(true, 9, [Token("ab"), Token("c"), Token("ab"), Token("c"), Token("!!!"), Position], Count(2)));
  }

  /** `.list(rule)` on "abcaabc!!!": without a branch, recovery skips one unit at a time to the terminator. */
  lemma RuleListRecoverItem()
    ensures Verify(ListF(RuleList, "abcaabc!!!", 0, [])) == TestResult(RecoveredError, Count(1), [Token("ab"), Token("c"), ExpectedLiteral(3, "ab", 1), ErrorToken("a"), Recovery, ErrorToken("a"), ErrorToken("b"), ErrorToken("c"), Finish, Token("!!!"), Position])
  {
    RuleListRecoverItemStep0();
    RuleListRecoverItemVerdict();
  }

  lemma RuleListRecoverItemStep0()
    ensures ListF(RuleList, "abcaabc!!!", 0, []) == Outcome(true, 10, [Token("ab"), Token("c"), ExpectedLiteral(3, "ab", 1), ErrorToken("a"), Recovery, ErrorToken("a"), ErrorToken("b"), ErrorToken("c"), Finish, Token("!!!"), Position], Count(1))
  {
    var s := "abcaabc!!!";
    RuleListRecoverItemStep1();
  }

  lemma RuleListRecoverItemStep1()
    ensures Resume(RuleList, "abcaabc!!!", AtItem, 0, 0, []) == Outcome(true, 10, [Token("ab"), Token("c"), ExpectedLiteral(3, "ab", 1), ErrorToken("a"), Recovery, ErrorToken("a"), ErrorToken("b"), ErrorToken("c"), Finish, Token("!!!"), Position], Count(1))
  {
    var s := "abcaabc!!!";
    assert s[0..2] == "ab";
    Hit("ab", s, 0);
    RuleListRecoverItemStep1Part0(s);
    RuleListRecoverItemStep2();
  }

  lemma RuleListRecoverItemStep1Part0(s: string)
    requires s == "abcaabc!!!"
    ensures StepsF(RuleItem.steps, s, 0, []) == Outcome(true, 3, [Token("ab"), Token("c")], NoValue)
  {
    StepsWhole(RuleItem.steps, s, 0, []);
    assert s[0..2] == "ab";
    LitHit(RuleItem.steps, 0, "ab", s, 0, [], [Token("ab")]);
    assert s[2..3] == "c";
    LitHit(RuleItem.steps, 1, "c", s, 2, [Token("ab")], [Token("ab"), Token("c")]);
    StepsDone(RuleItem.steps, s, 3, [Token("ab"), Token("c")]);
  }

  lemma RuleListRecoverItemStep2()
    ensures Resume(RuleList, "abcaabc!!!", AtTerminator, 3, 1, [Token("ab"), Token("c")]) == Outcome(true, 10, [Token("ab"), Token("c"), ExpectedLiteral(3, "ab", 1), ErrorToken("a"), Recovery, ErrorToken("a"), ErrorToken("b"), ErrorToken("c"), Finish, Token("!!!"), Position], Count(1))
  {
    var s := "abcaabc!!!";
    assert s[3..3] == "";
    assert "!!!"[..0] == "";
    Miss("!!!", s, 3, 0, "");
    RuleListRecoverItemStep3();
  }

  lemma RuleListRecoverItemStep3()
    ensures Resume(RuleList, "abcaabc!!!", AtSeparator, 3, 1, [Token("ab"), Token("c")]) == Outcome(true, 10, [Token("ab"), Token("c"), ExpectedLiteral(3, "ab", 1), ErrorToken("a"), Recovery, ErrorToken("a"), ErrorToken("b"), ErrorToken("c"), Finish, Token("!!!"), Position], Count(1))
  {
    var s := "abcaabc!!!";
    RuleListRecoverItemStep4();
  }

  lemma RuleListRecoverItemStep4()
    ensures Resume(RuleList, "abcaabc!!!", AtItem, 3, 1, [Token("ab"), Token("c")]) == Outcome(true, 10, [Token("ab"), Token("c"), ExpectedLiteral(3, "ab", 1), ErrorToken("a"), Recovery, ErrorToken("a"), ErrorToken("b"), ErrorToken("c"), Finish, Token("!!!"), Position], Count(1))
  {
    var s := "abcaabc!!!";
    assert s[3..4] == "a";
    assert "ab"[..1] == "a";
    Miss("ab", s, 3, 1, "a");
    RuleListRecoverItemStep4Part0(s);
    RuleListRecoverItemStep5();
  }

  lemma RuleListRecoverItemStep4Part0(s: string)
    requires s == "abcaabc!!!"
    ensures StepsF(RuleItem.steps, s, 3, [Token("ab"), Token("c")]) == Outcome(false, 4, [Token("ab"), Token("c"), ExpectedLiteral(3, "ab", 1), ErrorToken("a")], NoValue)
  {
    StepsWhole(RuleItem.steps, s, 3, [Token("ab"), Token("c")]);
    assert s[3..4] == "a";
    assert "ab"[..1] == "a";
    LitMiss(RuleItem.steps, 0, "ab", s, 3, 1, "a", [Token("ab"), Token("c")], [Token("ab"), Token("c"), ExpectedLiteral(3, "ab", 1), ErrorToken("a")]);
  }

  lemma RuleListRecoverItemStep5()
    ensures Resume(RuleList, "abcaabc!!!", AtRecovery, 4, 1, [Token("ab"), Token("c"), ExpectedLiteral(3, "ab", 1), ErrorToken("a")]) == Outcome(true, 10, [Token("ab"), Token("c"), ExpectedLiteral(3, "ab", 1), ErrorToken("a"), Recovery, ErrorToken("a"), ErrorToken("b"), ErrorToken("c"), Finish, Token("!!!"), Position], Count(1))
  {
    var s := "abcaabc!!!";
    assert ListStops(RuleList) == ["!!!"];
    assert s[4..4] == "";
    assert "!!!"[..0] == "";
    Miss("!!!", s, 4, 0, "");
    Any1("!!!", s, 4);
    assert s[4..4] == "";
    assert ";"[..0] == "";
    Miss(";", s, 4, 0, "");
    Any1(";", s, 4);
    ResyncNext(ListStops(RuleList), RuleList.term.limits, s, 4);
    assert s[5..5] == "";
    assert "!!!"[..0] == "";
    Miss("!!!", s, 5, 0, "");
    Any1("!!!", s, 5);
    assert s[5..5] == "";
    assert ";"[..0] == "";
    Miss(";", s, 5, 0, "");
    Any1(";", s, 5);
    ResyncNext(ListStops(RuleList), RuleList.term.limits, s, 5);
    assert s[6..6] == "";
    assert "!!!"[..0] == "";
    Miss("!!!", s, 6, 0, "");
    Any1("!!!", s, 6);
    assert s[6..6] == "";
    assert ";"[..0] == "";
    Miss(";", s, 6, 0, "");
    Any1(";", s, 6);
    ResyncNext(ListStops(RuleList), RuleList.term.limits, s, 6);
    assert s[7..10] == "!!!";
    Hit("!!!", s, 7);
    Any1("!!!", s, 7);
    assert s[7..7] == "";
    assert ";"[..0] == "";
    Miss(";", s, 7, 0, "");
    Any1(";", s, 7);
    ResyncHere(ListStops(RuleList), RuleList.term.limits, s, 7);
    RuleListRecoverItemStep5Part0(s);
    RuleListRecoverItemStep5Part1(s);
  }

  lemma RuleListRecoverItemStep5Part0(s: string)
    requires s == "abcaabc!!!"
    ensures Skip(s, 4, 7, [Token("ab"), Token("c"), ExpectedLiteral(3, "ab", 1), ErrorToken("a")] + [Recovery]) == [Token("ab"), Token("c"), ExpectedLiteral(3, "ab", 1), ErrorToken("a"), Recovery, ErrorToken("a"), ErrorToken("b"), ErrorToken("c")]
  {
    SkipStep(s, 4, 7, [Token("ab"), Token("c"), ExpectedLiteral(3, "ab", 1), ErrorToken("a")] + [Recovery], [Token("ab"), Token("c"), ExpectedLiteral(3, "ab", 1), ErrorToken("a"), Recovery, ErrorToken("a")]);
    SkipStep(s, 5, 7, [Token("ab"), Token("c"), ExpectedLiteral(3, "ab", 1), ErrorToken("a"), Recovery, ErrorToken("a")], [Token("ab"), Token("c"), ExpectedLiteral(3, "ab", 1), ErrorToken("a"), Recovery, ErrorToken("a"), ErrorToken("b")]);
    SkipStep(s, 6, 7, [Token("ab"), Token("c"), ExpectedLiteral(3, "ab", 1), ErrorToken("a"), Recovery, ErrorToken("a"), ErrorToken("b")], [Token("ab"), Token("c"), ExpectedLiteral(3, "ab", 1), ErrorToken("a"), Recovery, ErrorToken("a"), ErrorToken("b"), ErrorToken("c")]);
    SkipDone(s, 7, [Token("ab"), Token("c"), ExpectedLiteral(3, "ab", 1), ErrorToken("a"), Recovery, ErrorToken("a"), ErrorToken("b"), ErrorToken("c")]);
  }

  lemma RuleListRecoverItemStep5Part1(s: string)
    requires s == "abcaabc!!!"
    ensures StepsF(TermRule(TestTerm).steps, s, 7, [Token("ab"), Token("c"), ExpectedLiteral(3, "ab", 1), ErrorToken("a"), Recovery, ErrorToken("a"), ErrorToken("b"), ErrorToken("c")] + [Finish]) == Outcome(true, 10, [Token("ab"), Token("c"), ExpectedLiteral(3, "ab", 1), ErrorToken("a"), Recovery, ErrorToken("a"), ErrorToken("b"), ErrorToken("c"), Finish, Token("!!!"), Position], NoValue)
  {
    StepsWhole(TermRule(TestTerm).steps, s, 7, [Token("ab"), Token("c"), ExpectedLiteral(3, "ab", 1), ErrorToken("a"), Recovery, ErrorToken("a"), ErrorToken("b"), ErrorToken("c")] + [Finish]);
    assert s[7..10] == "!!!";
    LitHit(TermRule(TestTerm).steps, 0, "!!!", s, 7, [Token("ab"), Token("c"), ExpectedLiteral(3, "ab", 1), ErrorToken("a"), Recovery, ErrorToken("a"), ErrorToken("b"), ErrorToken("c")] + [Finish], [Token("ab"), Token("c"), ExpectedLiteral(3, "ab", 1), ErrorToken("a"), Recovery, ErrorToken("a"), ErrorToken("b"), ErrorToken("c"), Finish, Token("!!!")]);
    PosStep(TermRule(TestTerm).steps, 1, s, 10, [Token("ab"), Token("c"), ExpectedLiteral(3, "ab", 1), ErrorToken("a"), Recovery, ErrorToken("a"), ErrorToken("b"), ErrorToken("c"), Finish, Token("!!!")], [Token("ab"), Token("c"), ExpectedLiteral(3, "ab", 1), ErrorToken("a"), Recovery, ErrorToken("a"), ErrorToken("b"), ErrorToken("c"), Finish, Token("!!!"), Position]);
    StepsDone(TermRule(TestTerm).steps, s, 10, [Token("ab"), Token("c"), ExpectedLiteral(3, "ab", 1), ErrorToken("a"), Recovery, ErrorToken("a"), ErrorToken("b"), ErrorToken("c"), Finish, Token("!!!"), Position]);
  }

  lemma RuleListRecoverItemVerdict()
    ensures Verify(Outcome(true, 10, [Token("ab"), Token("c"), ExpectedLiteral(3, "ab", 1), ErrorToken("a"), Recovery, ErrorToken("a"), ErrorToken("b"), ErrorToken("c"), Finish, Token("!!!"), Position], Count(1))) == TestResult(RecoveredError, Count(1), [Token("ab"), Token("c"), ExpectedLiteral(3, "ab", 1), ErrorToken("a"), Recovery, ErrorToken("a"), ErrorToken("b"), ErrorToken("c"), Finish, Token("!!!"), Position])
  {
    VerifyRecovered(Outcome(true, 10, [Token("ab"), Token("c"), ExpectedLiteral(3, "ab", 1), ErrorToken("a"), Recovery, ErrorToken("a"), ErrorToken("b"), ErrorToken("c"), Finish, Token("!!!"), Position], Count(1)), 2);
  }

  /** `.list(rule)` on "abcabd;abc!!!". */
  lemma RuleListRecoverLimit()
    ensures Verify(ListF(RuleList, "abcabd;abc!!!", 0, [])) == TestResult(FatalError, Count(1), [Token("ab"), Token("c"), Token("ab"), ExpectedLiteral(5, "c", 0), Recovery, ErrorToken("d"), Cancel, Cancel])
  {
    RuleListRecoverLimitStep0();
    RuleListRecoverLimitVerdict();
  }

  lemma RuleListRecoverLimitStep0()
    ensures ListF(RuleList, "abcabd;abc!!!", 0, []) == Outcome(false, 6, [Token("ab"), Token("c"), Token("ab"), ExpectedLiteral(5, "c", 0), Recovery, ErrorToken("d"), Cancel], Count(1))
  {
    var s := "abcabd;abc!!!";
    RuleListRecoverLimitStep1();
  }

  lemma RuleListRecoverLimitStep1()
    ensures Resume(RuleList, "abcabd;abc!!!", AtItem, 0, 0, []) == Outcome(false, 6, [Token("ab"), Token("c"), Token("ab"), ExpectedLiteral(5, "c", 0), Recovery, ErrorToken("d"), Cancel], Count(1))
  {
    var s := "abcabd;abc!!!";
    assert s[0..2] == "ab";
    Hit("ab", s, 0);
    RuleListRecoverLimitStep1Part0(s);
    RuleListRecoverLimitStep2();
  }

  lemma RuleListRecoverLimitStep1Part0(s: string)
    requires s == "abcabd;abc!!!"
    ensures StepsF(RuleItem.steps, s, 0, []) == Outcome(true, 3, [Token("ab"), Token("c")], NoValue)
  {
    StepsWhole(RuleItem.steps, s, 0, []);
    assert s[0..2] == "ab";
    LitHit(RuleItem.steps, 0, "ab", s, 0, [], [Token("ab")]);
    assert s[2..3] == "c";
    LitHit(RuleItem.steps, 1, "c", s, 2, [Token("ab")], [Token("ab"), Token("c")]);
    StepsDone(RuleItem.steps, s, 3, [Token("ab"), Token("c")]);
  }

  lemma RuleListRecoverLimitStep2()
    ensures Resume(RuleList, "abcabd;abc!!!", AtTerminator, 3, 1, [Token("ab"), Token("c")]) == Outcome(false, 6, [Token("ab"), Token("c"), Token("ab"), ExpectedLiteral(5, "c", 0), Recovery, ErrorToken("d"), Cancel], Count(1))
  {
    var s := "abcabd;abc!!!";
    assert s[3..3] == "";
    assert "!!!"[..0] == "";
    Miss("!!!", s, 3, 0, "");
    RuleListRecoverLimitStep3();
  }

  lemma RuleListRecoverLimitStep3()
    ensures Resume(RuleList, "abcabd;abc!!!", AtSeparator, 3, 1, [Token("ab"), Token("c")]) == Outcome(false, 6, [Token("ab"), Token("c"), Token("ab"), ExpectedLiteral(5, "c", 0), Recovery, ErrorToken("d"), Cancel], Count(1))
  {
    var s := "abcabd;abc!!!";
    RuleListRecoverLimitStep4();
  }

  lemma RuleListRecoverLimitStep4()
    ensures Resume(RuleList, "abcabd;abc!!!", AtItem, 3, 1, [Token("ab"), Token("c")]) == Outcome(false, 6, [Token("ab"), Token("c"), Token("ab"), ExpectedLiteral(5, "c", 0), Recovery, ErrorToken("d"), Cancel], Count(1))
  {
    var s := "abcabd;abc!!!";
    assert s[3..5] == "ab";
    Hit("ab", s, 3);
    RuleListRecoverLimitStep4Part0(s);
    RuleListRecoverLimitStep5();
  }

  lemma RuleListRecoverLimitStep4Part0(s: string)
    requires s == "abcabd;abc!!!"
    ensures StepsF(RuleItem.steps, s, 3, [Token("ab"), Token("c")]) == Outcome(false, 5, [Token("ab"), Token("c"), Token("ab"), ExpectedLiteral(5, "c", 0)], NoValue)
  {
    StepsWhole(RuleItem.steps, s, 3, [Token("ab"), Token("c")]);
    assert s[3..5] == "ab";
    LitHit(RuleItem.steps, 0, "ab", s, 3, [Token("ab"), Token("c")], [Token("ab"), Token("c"), Token("ab")]);
    assert s[5..5] == "";
    assert "c"[..0] == "";
    LitMiss(RuleItem.steps, 1, "c", s, 5, 0, "", [Token("ab"), Token("c"), Token("ab")], [Token("ab"), Token("c"), Token("ab"), ExpectedLiteral(5, "c", 0)]);
  }

  lemma RuleListRecoverLimitStep5()
    ensures Resume(RuleList, "abcabd;abc!!!", AtRecovery, 5, 1, [Token("ab"), Token("c"), Token("ab"), ExpectedLiteral(5, "c", 0)]) == Outcome(false, 6, [Token("ab"), Token("c"), Token("ab"), ExpectedLiteral(5, "c", 0), Recovery, ErrorToken("d"), Cancel], Count(1))
  {
    var s := "abcabd;abc!!!";
    assert ListStops(RuleList) == ["!!!"];
    assert s[5..5] == "";
    assert "!!!"[..0] == "";
    Miss("!!!", s, 5, 0, "");
    Any1("!!!", s, 5);
    assert s[5..5] == "";
    assert ";"[..0] == "";
    Miss(";", s, 5, 0, "");
    Any1(";", s, 5);
    ResyncNext(ListStops(RuleList), RuleList.term.limits, s, 5);
    assert s[6..6] == "";
    assert "!!!"[..0] == "";
    Miss("!!!", s, 6, 0, "");
    Any1("!!!", s, 6);
    assert s[6..7] == ";";
    Hit(";", s, 6);
    Any1(";", s, 6);
    ResyncHere(ListStops(RuleList), RuleList.term.limits, s, 6);
    RuleListRecoverLimitStep5Part0(s);
  }

  lemma RuleListRecoverLimitStep5Part0(s: string)
    requires s == "abcabd;abc!!!"
    ensures Skip(s, 5, 6, [Token("ab"), Token("c"), Token("ab"), ExpectedLiteral(5, "c", 0)] + [Recovery]) == [Token("ab"), Token("c"), Token("ab"), ExpectedLiteral(5, "c", 0), Recovery, ErrorToken("d")]
  {
    SkipStep(s, 5, 6, [Token("ab"), Token("c"), Token("ab"), ExpectedLiteral(5, "c", 0)] + [Recovery], [Token("ab"), Token("c"), Token("ab"), ExpectedLiteral(5, "c", 0), Recovery, ErrorToken("d")]);
    SkipDone(s, 6, [Token("ab"), Token("c"), Token("ab"), ExpectedLiteral(5, "c", 0), Recovery, ErrorToken("d")]);
  }

  lemma RuleListRecoverLimitVerdict()
    ensures Verify(Outcome(false, 6, [Token("ab"), Token("c"), Token("ab"), ExpectedLiteral(5, "c", 0), Recovery, ErrorToken("d"), Cancel], Count(1))) == TestResult(FatalError, Count(1), [Token("ab"), Token("c"), Token("ab"), ExpectedLiteral(5, "c", 0), Recovery, ErrorToken("d"), Cancel, Cancel])
  {
    VerifyFatal(Outcome(false, 6, [Token("ab"), Token("c"), Token("ab"), ExpectedLiteral(5, "c", 0), Recovery, ErrorToken("d"), Cancel], Count(1)), [Token("ab"), Token("c"), Token("ab"), ExpectedLiteral(5, "c", 0), Recovery, ErrorToken("d"), Cancel, Cancel]);
  }

  /** `.list(rule)` on "". */
  lemma RuleListEmpty()
    ensures Verify(ListF(RuleList, "", 0, [])) == TestResult(FatalError, Count(0), [ExpectedLiteral(0, "ab", 0), Recovery, Cancel, Cancel])
  {
    RuleListEmptyStep0();
    RuleListEmptyVerdict();
  }

  lemma RuleListEmptyStep0()
    ensures ListF(RuleList, "", 0, []) == Outcome(false, 0, [ExpectedLiteral(0, "ab", 0), Recovery, Cancel], Count(0))
  {
    var s := "";
    RuleListEmptyStep1();
  }

  lemma RuleListEmptyStep1()
    ensures Resume(RuleList, "", AtItem, 0, 0, []) == Outcome(false, 0, [ExpectedLiteral(0, "ab", 0), Recovery, Cancel], Count(0))
  {
    var s := "";
    assert s[0..0] == "";
    assert "ab"[..0] == "";
    Miss("ab", s, 0, 0, "");
    RuleListEmptyStep1Part0(s);
    RuleListEmptyStep2();
  }

  lemma RuleListEmptyStep1Part0(s: string)
    requires s == ""
    ensures StepsF(RuleItem.steps, s, 0, []) == Outcome(false, 0, [ExpectedLiteral(0, "ab", 0)], NoValue)
  {
    StepsWhole(RuleItem.steps, s, 0, []);
    assert s[0..0] == "";
    assert "ab"[..0] == "";
    LitMiss(RuleItem.steps, 0, "ab", s, 0, 0, "", [], [ExpectedLiteral(0, "ab", 0)]);
  }

  lemma RuleListEmptyStep2()
    ensures Resume(RuleList, "", AtRecovery, 0, 0, [ExpectedLiteral(0, "ab", 0)]) == Outcome(false, 0, [ExpectedLiteral(0, "ab", 0), Recovery, Cancel], Count(0))
  {
    var s := "";
    assert ListStops(RuleList) == ["!!!"];
    assert s[0..0] == "";
    assert "!!!"[..0] == "";
    Miss("!!!", s, 0, 0, "");
    Any1("!!!", s, 0);
    ResyncHere(ListStops(RuleList), RuleList.term.limits, s, 0);
    RuleListEmptyStep2Part0(s);
  }

  lemma RuleListEmptyStep2Part0(s: string)
    requires s == ""
    ensures Skip(s, 0, 0, [ExpectedLiteral(0, "ab", 0)] + [Recovery]) == [ExpectedLiteral(0, "ab", 0), Recovery]
  {
    SkipDone(s, 0, [ExpectedLiteral(0, "ab", 0)] + [Recovery]);
  }

  lemma RuleListEmptyVerdict()
    ensures Verify(Outcome(false, 0, [ExpectedLiteral(0, "ab", 0), Recovery, Cancel], Count(0))) == TestResult(FatalError, Count(0), [ExpectedLiteral(0, "ab", 0), Recovery, Cancel, Cancel])
  {
    VerifyFatal(Outcome(false, 0, [ExpectedLiteral(0, "ab", 0), Recovery, Cancel], Count(0)), [ExpectedLiteral(0, "ab", 0), Recovery, Cancel, Cancel]);
  }

  /** `.list(rule)` on "abc!!!". */
  lemma RuleListOne()
    ensures Verify(ListF(RuleList, "abc!!!", 0, [])) == TestResult(Success, Count(1), [Token("ab"), Token("c"), Token("!!!"), Position])
  {
    RuleListOneStep0();
    RuleListOneVerdict();
  }

  lemma RuleListOneStep0()
    ensures ListF(RuleList, "abc!!!", 0, []) == Outcome(true, 6, [Token("ab"), Token("c"), Token("!!!"), Position], Count(1))
  {
    var s := "abc!!!";
    RuleListOneStep1();
  }

  lemma RuleListOneStep1()
    ensures Resume(RuleList, "abc!!!", AtItem, 0, 0, []) == Outcome(true, 6, [Token("ab"), Token("c"), Token("!!!"), Position], Count(1))
  {
    var s := "abc!!!";
    assert s[0..2] == "ab";
    Hit("ab", s, 0);
    RuleListOneStep1Part0(s);
    RuleListOneStep2();
  }

  lemma RuleListOneStep1Part0(s: string)
    requires s == "abc!!!"
    ensures StepsF(RuleItem.steps, s, 0, []) == Outcome(true, 3, [Token("ab"), Token("c")], NoValue)
  {
    StepsWhole(RuleItem.steps, s, 0, []);
    assert s[0..2] == "ab";
    LitHit(RuleItem.steps, 0, "ab", s, 0, [], [Token("ab")]);
    assert s[2..3] == "c";
    LitHit(RuleItem.steps, 1, "c", s, 2, [Token("ab")], [Token("ab"), Token("c")]);
    StepsDone(RuleItem.steps, s, 3, [Token("ab"), Token("c")]);
  }

  lemma RuleListOneStep2()
    ensures Resume(RuleList, "abc!!!", AtTerminator, 3, 1, [Token("ab"), Token("c")]) == Outcome(true, 6, [Token("ab"), Token("c"), Token("!!!"), Position], Count(1))
  {
    var s := "abc!!!";
    assert s[3..6] == "!!!";
    Hit("!!!", s, 3);
    RuleListOneStep2Part0(s);
  }

  lemma RuleListOneStep2Part0(s: string)
    requires s == "abc!!!"
    ensures StepsF(TermRule(TestTerm).steps, s, 3, [Token("ab"), Token("c")]) == Outcome(true, 6, [Token("ab"), Token("c"), Token("!!!"), Position], NoValue)
  {
    StepsWhole(TermRule(TestTerm).steps, s, 3, [Token("ab"), Token("c")]);
    assert s[3..6] == "!!!";
    LitHit(TermRule(TestTerm).steps, 0, "!!!", s, 3, [Token("ab"), Token("c")], [Token("ab"), Token("c"), Token("!!!")]);
    PosStep(TermRule(TestTerm).steps, 1, s, 6, [Token("ab"), Token("c"), Token("!!!")], [Token("ab"), Token("c"), Token("!!!"), Position]);
    StepsDone(TermRule(TestTerm).steps, s, 6, [Token("ab"), Token("c"), Token("!!!"), Position]);
  }

  lemma RuleListOneVerdict()
    ensures Verify(Outcome(true, 6, [Token("ab"), Token("c"), Token("!!!"), Position], Count(1))) == TestResult(Success, Count(1), [Token("ab"), Token("c"), Token("!!!"), Position])
  {
    VerifySuccess(Outcome(true, 6, [Token("ab"), Token("c"), Token("!!!"), Position], Count(1)));
  }

  /** `.list(rule)` on "abcabcabc!!!". */
  lemma RuleListThree()
    ensures Verify(ListF(RuleList, "abcabcabc!!!", 0, [])) == TestResult(Success, Count(3), [Token("ab"), Token("c"), Token("ab"), Token("c"), Token("ab"), Token("c"), Token("!!!"), Position])
  {
    RuleListThreeStep0();
    RuleListThreeVerdict();
  }

  lemma RuleListThreeStep0()
    ensures ListF(RuleList, "abcabcabc!!!", 0, []) == Outcome(true, 12, [Token("ab"), Token("c"), Token("ab"), Token("c"), Token("ab"), Token("c"), Token("!!!"), Position], Count(3))
  {
    var s := "abcabcabc!!!";
    RuleListThreeStep1();
  }

  lemma RuleListThreeStep1()
    ensures Resume(RuleList, "abcabcabc!!!", AtItem, 0, 0, []) == Outcome(true, 12, [Token("ab"), Token("c"), Token("ab"), Token("c"), Token("ab"), Token("c"), Token("!!!"), Position], Count(3))
  {
    var s := "abcabcabc!!!";
    assert s[0..2] == "ab";
    Hit("ab", s, 0);
    RuleListThreeStep1Part0(s);
    RuleListThreeStep2();
  }

  lemma RuleListThreeStep1Part0(s: string)
    requires s == "abcabcabc!!!"
    ensures StepsF(RuleItem.steps, s, 0, []) == Outcome(true, 3, [Token("ab"), Token("c")], NoValue)
  {
    StepsWhole(RuleItem.steps, s, 0, []);
    assert s[0..2] == "ab";
    LitHit(RuleItem.steps, 0, "ab", s, 0, [], [Token("ab")]);
    assert s[2..3] == "c";
    LitHit(RuleItem.steps, 1, "c", s, 2, [Token("ab")], [Token("ab"), Token("c")]);
    StepsDone(RuleItem.steps, s, 3, [Token("ab"), Token("c")]);
  }

  lemma RuleListThreeStep2()
    ensures Resume(RuleList, "abcabcabc!!!", AtTerminator, 3, 1, [Token("ab"), Token("c")]) == Outcome(true, 12, [Token("ab"), Token("c"), Token("ab"), Token("c"), Token("ab"), Token("c"), Token("!!!"), Position], Count(3))
  {
    var s := "abcabcabc!!!";
    assert s[3..3] == "";
    assert "!!!"[..0] == "";
    Miss("!!!", s, 3, 0, "");
    RuleListThreeStep3();
  }

  lemma RuleListThreeStep3()
    ensures Resume(RuleList, "abcabcabc!!!", AtSeparator, 3, 1, [Token("ab"), Token("c")]) == Outcome(true, 12, [Token("ab"), Token("c"), Token("ab"), Token("c"), Token("ab"), Token("c"), Token("!!!"), Position], Count(3))
  {
    var s := "abcabcabc!!!";
    RuleListThreeStep4();
  }

  lemma RuleListThreeStep4()
    ensures Resume(RuleList, "abcabcabc!!!", AtItem, 3, 1, [Token("ab"), Token("c")]) == Outcome(true, 12, [Token("ab"), Token("c"), Token("ab"), Token("c"), Token("ab"), Token("c"), Token("!!!"), Position], Count(3))
  {
    var s := "abcabcabc!!!";
    assert s[3..5] == "ab";
    Hit("ab", s, 3);
    RuleListThreeStep4Part0(s);
    RuleListThreeStep5();
  }

  lemma RuleListThreeStep4Part0(s: string)
    requires s == "abcabcabc!!!"
    ensures StepsF(RuleItem.steps, s, 3, [Token("ab"), Token("c")]) == Outcome(true, 6, [Token("ab"), Token("c"), Token("ab"), Token("c")], NoValue)
  {
    StepsWhole(RuleItem.steps, s, 3, [Token("ab"), Token("c")]);
    assert s[3..5] == "ab";
    LitHit(RuleItem.steps, 0, "ab", s, 3, [Token("ab"), Token("c")], [Token("ab"), Token("c"), Token("ab")]);
    assert s[5..6] == "c";
    LitHit(RuleItem.steps, 1, "c", s, 5, [Token("ab"), Token("c"), Token("ab")], [Token("ab"), Token("c"), Token("ab"), Token("c")]);
    StepsDone(RuleItem.steps, s, 6, [Token("ab"), Token("c"), Token("ab"), Token("c")]);
  }

  lemma RuleListThreeStep5()
    ensures Resume(RuleList, "abcabcabc!!!", AtTerminator, 6, 2, [Token("ab"), Token("c"), Token("ab"), Token("c")]) == Outcome(true, 12, [Token("ab"), Token("c"), Token("ab"), Token("c"), Token("ab"), Token("c"), Token("!!!"), Position], Count(3))
  {
    var s := "abcabcabc!!!";
    assert s[6..6] == "";
    assert "!!!"[..0] == "";
    Miss("!!!", s, 6, 0, "");
    RuleListThreeStep6();
  }

  lemma RuleListThreeStep6()
    ensures Resume(RuleList, "abcabcabc!!!", AtSeparator, 6, 2, [Token("ab"), Token("c"), Token("ab"), Token("c")]) == Outcome(true, 12, [Token("ab"), Token("c"), Token("ab"), Token("c"), Token("ab"), Token("c"), Token("!!!"), Position], Count(3))
  {
    var s := "abcabcabc!!!";
    RuleListThreeStep7();
  }

  lemma RuleListThreeStep7()
    ensures Resume(RuleList, "abcabcabc!!!", AtItem, 6, 2, [Token("ab"), Token("c"), Token("ab"), Token("c")]) == Outcome(true, 12, [Token("ab"), Token("c"), Token("ab"), Token("c"), Token("ab"), Token("c"), Token("!!!"), Position], Count(3))
  {
    var s := "abcabcabc!!!";
    assert s[6..8] == "ab";
    Hit("ab", s, 6);
    RuleListThreeStep7Part0(s);
    RuleListThreeStep8();
  }

  lemma RuleListThreeStep7Part0(s: string)
    requires s == "abcabcabc!!!"
    ensures StepsF(RuleItem.steps, s, 6, [Token("ab"), Token("c"), Token("ab"), Token("c")]) == Outcome(true, 9, [Token("ab"), Token("c"), Token("ab"), Token("c"), Token("ab"), Token("c")], NoValue)
  {
    StepsWhole(RuleItem.steps, s, 6, [Token("ab"), Token("c"), Token("ab"), Token("c")]);
    assert s[6..8] == "ab";
    LitHit(RuleItem.steps, 0, "ab", s, 6, [Token("ab"), Token("c"), Token("ab"), Token("c")], [Token("ab"), Token("c"), Token("ab"), Token("c"), Token("ab")]);
    assert s[8..9] == "c";
    LitHit(RuleItem.steps, 1, "c", s, 8, [Token("ab"), Token("c"), Token("ab"), Token("c"), Token("ab")], [Token("ab"), Token("c"), Token("ab"), Token("c"), Token("ab"), Token("c")]);
    StepsDone(RuleItem.steps, s, 9, [Token("ab"), Token("c"), Token("ab"), Token("c"), Token("ab"), Token("c")]);
  }

  lemma RuleListThreeStep8()
    ensures Resume(RuleList, "abcabcabc!!!", AtTerminator, 9, 3, [Token("ab"), Token("c"), Token("ab"), Token("c"), Token("ab"), Token("c")]) == Outcome(true, 12, [Token("ab"), Token("c"), Token("ab"), Token("c"), Token("ab"), Token("c"), Token("!!!"), Position], Count(3))
  {
    var s := "abcabcabc!!!";
    assert s[9..12] == "!!!";
    Hit("!!!", s, 9);
    RuleListThreeStep8Part0(s);
  }

  lemma RuleListThreeStep8Part0(s: string)
    requires s == "abcabcabc!!!"
    ensures StepsF(TermRule(TestTerm).steps, s, 9, [Token("ab"), Token("c"), Token("ab"), Token("c"), Token("ab"), Token("c")]) == Outcome(true, 12, [Token("ab"), Token("c"), Token("ab"), Token("c"), Token("ab"), Token("c"), Token("!!!"), Position], NoValue)
  {
    StepsWhole(TermRule(TestTerm).steps, s, 9, [Token("ab"), Token("c"), Token("ab"), Token("c"), Token("ab"), Token("c")]);
    assert s[9..12] == "!!!";
    LitHit(TermRule(TestTerm).steps, 0, "!!!", s, 9, [Token("ab"), Token("c"), Token("ab"), Token("c"), Token("ab"), Token("c")], [Token("ab"), Token("c"), Token("ab"), Token("c"), Token("ab"), Token("c"), Token("!!!")]);
    PosStep(TermRule(TestTerm).steps, 1, s, 12, [Token("ab"), Token("c"), Token("ab"), Token("c"), Token("ab"), Token("c"), Token("!!!")], [Token("ab"), Token("c"), Token("ab"), Token("c"), Token("ab"), Token("c"), Token("!!!"), Position]);
    StepsDone(TermRule(TestTerm).steps, s, 12, [Token("ab"), Token("c"), Token("ab"), Token("c"), Token("ab"), Token("c"), Token("!!!"), Position]);
  }

  lemma RuleListThreeVerdict()
    ensures Verify(Outcome(true, 12, [Token("ab"), Token("c"), Token("ab"), Token("c"), Token("ab"), Token("c"), Token("!!!"), Position], Count(3))) == TestResult(Success, Count(3), [Token("ab"), Token("c"), Token("ab"), Token("c"), Token("ab"), Token("c"), Token("!!!"), Position])
  {
    VerifySuccess(Outcome(true, 12, [Token("ab"), Token("c"), Token("ab"), Token("c"), Token("ab"), Token("c"), Token("!!!"), Position], Count(3)));
  }

  /** `.list(rule)` on "abcabd!!!". */
  lemma RuleListRecoverTerminator()
    ensures Verify(ListF(RuleList, "abcabd!!!", 0, [])) == TestResult(RecoveredError, Count(1), [Token("ab"), Token("c"), Token("ab"), ExpectedLiteral(5, "c", 0), Recovery, ErrorToken("d"), Finish, Token("!!!"), Position])
  {
    RuleListRecoverTerminatorStep0();
    RuleListRecoverTerminatorVerdict();
  }

  lemma RuleListRecoverTerminatorStep0()
    ensures ListF(RuleList, "abcabd!!!", 0, []) == Outcome(true, 9, [Token("ab"), Token("c"), Token("ab"), ExpectedLiteral(5, "c", 0), Recovery, ErrorToken("d"), Finish, Token("!!!"), Position], Count(1))
  {
    var s := "abcabd!!!";
    RuleListRecoverTerminatorStep1();
  }

  lemma RuleListRecoverTerminatorStep1()
    ensures Resume(RuleList, "abcabd!!!", AtItem, 0, 0, []) == Outcome(true, 9, [Token("ab"), Token("c"), Token("ab"), ExpectedLiteral(5, "c", 0), Recovery, ErrorToken("d"), Finish, Token("!!!"), Position], Count(1))
  {
    var s := "abcabd!!!";
    assert s[0..2] == "ab";
    Hit("ab", s, 0);
    RuleListRecoverTerminatorStep1Part0(s);
    RuleListRecoverTerminatorStep2();
  }

  lemma RuleListRecoverTerminatorStep1Part0(s: string)
    requires s == "abcabd!!!"
    ensures StepsF(RuleItem.steps, s, 0, []) == Outcome(true, 3, [Token("ab"), Token("c")], NoValue)
  {
    StepsWhole(RuleItem.steps, s, 0, []);
    assert s[0..2] == "ab";
    LitHit(RuleItem.steps, 0, "ab", s, 0, [], [Token("ab")]);
    assert s[2..3] == "c";
    LitHit(RuleItem.steps, 1, "c", s, 2, [Token("ab")], [Token("ab"), Token("c")]);
    StepsDone(RuleItem.steps, s, 3, [Token("ab"), Token("c")]);
  }

  lemma RuleListRecoverTerminatorStep2()
    ensures Resume(RuleList, "abcabd!!!", AtTerminator, 3, 1, [Token("ab"), Token("c")]) == Outcome(true, 9, [Token("ab"), Token("c"), Token("ab"), ExpectedLiteral(5, "c", 0), Recovery, ErrorToken("d"), Finish, Token("!!!"), Position], Count(1))
  {
    var s := "abcabd!!!";
    assert s[3..3] == "";
    assert "!!!"[..0] == "";
    Miss("!!!", s, 3, 0, "");
    RuleListRecoverTerminatorStep3();
  }

  lemma RuleListRecoverTerminatorStep3()
    ensures Resume(RuleList, "abcabd!!!", AtSeparator, 3, 1, [Token("ab"), Token("c")]) == Outcome(true, 9, [Token("ab"), Token("c"), Token("ab"), ExpectedLiteral(5, "c", 0), Recovery, ErrorToken("d"), Finish, Token("!!!"), Position], Count(1))
  {
    var s := "abcabd!!!";
    RuleListRecoverTerminatorStep4();
  }

  lemma RuleListRecoverTerminatorStep4()
    ensures Resume(RuleList, "abcabd!!!", AtItem, 3, 1, [Token("ab"), Token("c")]) == Outcome(true, 9, [Token("ab"), Token("c"), Token("ab"), ExpectedLiteral(5, "c", 0), Recovery, ErrorToken("d"), Finish, Token("!!!"), Position], Count(1))
  {
    var s := "abcabd!!!";
    assert s[3..5] == "ab";
    Hit("ab", s, 3);
    RuleListRecoverTerminatorStep4Part0(s);
    RuleListRecoverTerminatorStep5();
  }

  lemma RuleListRecoverTerminatorStep4Part0(s: string)
    requires s == "abcabd!!!"
    ensures StepsF(RuleItem.steps, s, 3, [Token("ab"), Token("c")]) == Outcome(false, 5, [Token("ab"), Token("c"), Token("ab"), ExpectedLiteral(5, "c", 0)], NoValue)
  {
    StepsWhole(RuleItem.steps, s, 3, [Token("ab"), Token("c")]);
    assert s[3..5] == "ab";
    LitHit(RuleItem.steps, 0, "ab", s, 3, [Token("ab"), Token("c")], [Token("ab"), Token("c"), Token("ab")]);
    assert s[5..5] == "";
    assert "c"[..0] == "";
    LitMiss(RuleItem.steps, 1, "c", s, 5, 0, "", [Token("ab"), Token("c"), Token("ab")], [Token("ab"), Token("c"), Token("ab"), ExpectedLiteral(5, "c", 0)]);
  }

  lemma RuleListRecoverTerminatorStep5()
    ensures Resume(RuleList, "abcabd!!!", AtRecovery, 5, 1, [Token("ab"), Token("c"), Token("ab"), ExpectedLiteral(5, "c", 0)]) == Outcome(true, 9, [Token("ab"), Token("c"), Token("ab"), ExpectedLiteral(5, "c", 0), Recovery, ErrorToken("d"), Finish, Token("!!!"), Position], Count(1))
  {
    var s := "abcabd!!!";
    assert ListStops(RuleList) == ["!!!"];
    assert s[5..5] == "";
    assert "!!!"[..0] == "";
    Miss("!!!", s, 5, 0, "");
    Any1("!!!", s, 5);
    assert s[5..5] == "";
    assert ";"[..0] == "";
    Miss(";", s, 5, 0, "");
    Any1(";", s, 5);
    ResyncNext(ListStops(RuleList), RuleList.term.limits, s, 5);
    assert s[6..9] == "!!!";
    Hit("!!!", s, 6);
    Any1("!!!", s, 6);
    assert s[6..6] == "";
    assert ";"[..0] == "";
    Miss(";", s, 6, 0, "");
    Any1(";", s, 6);
    ResyncHere(ListStops(RuleList), RuleList.term.limits, s, 6);
    RuleListRecoverTerminatorStep5Part0(s);
    RuleListRecoverTerminatorStep5Part1(s);
  }

  lemma RuleListRecoverTerminatorStep5Part0(s: string)
    requires s == "abcabd!!!"
    ensures Skip(s, 5, 6, [Token("ab"), Token("c"), Token("ab"), ExpectedLiteral(5, "c", 0)] + [Recovery]) == [Token("ab"), Token("c"), Token("ab"), ExpectedLiteral(5, "c", 0), Recovery, ErrorToken("d")]
  {
    SkipStep(s, 5, 6, [Token("ab"), Token("c"), Token("ab"), ExpectedLiteral(5, "c", 0)] + [Recovery], [Token("ab"), Token("c"), Token("ab"), ExpectedLiteral(5, "c", 0), Recovery, ErrorToken("d")]);
    SkipDone(s, 6, [Token("ab"), Token("c"), Token("ab"), ExpectedLiteral(5, "c", 0), Recovery, ErrorToken("d")]);
  }

  lemma RuleListRecoverTerminatorStep5Part1(s: string)
    requires s == "abcabd!!!"
    ensures StepsF(TermRule(TestTerm).steps, s, 6, [Token("ab"), Token("c"), Token("ab"), ExpectedLiteral(5, "c", 0), Recovery, ErrorToken("d")] + [Finish]) == Outcome(true, 9, [Token("ab"), Token("c"), Token("ab"), ExpectedLiteral(5, "c", 0), Recovery, ErrorToken("d"), Finish, Token("!!!"), Position], NoValue)
  {
    StepsWhole(TermRule(TestTerm).steps, s, 6, [Token("ab"), Token("c"), Token("ab"), ExpectedLiteral(5, "c", 0), Recovery, ErrorToken("d")] + [Finish]);
    assert s[6..9] == "!!!";
    LitHit(TermRule(TestTerm).steps, 0, "!!!", s, 6, [Token("ab"), Token("c"), Token("ab"), ExpectedLiteral(5, "c", 0), Recovery, ErrorToken("d")] + [Finish], [Token("ab"), Token("c"), Token("ab"), ExpectedLiteral(5, "c", 0), Recovery, ErrorToken("d"), Finish, Token("!!!")]);
    PosStep(TermRule(TestTerm).steps, 1, s, 9, [Token("ab"), Token("c"), Token("ab"), ExpectedLiteral(5, "c", 0), Recovery, ErrorToken("d"), Finish, Token("!!!")], [Token("ab"), Token("c"), Token("ab"), ExpectedLiteral(5, "c", 0), Recovery, ErrorToken("d"), Finish, Token("!!!"), Position]);
    StepsDone(TermRule(TestTerm).steps, s, 9, [Token("ab"), Token("c"), Token("ab"), ExpectedLiteral(5, "c", 0), Recovery, ErrorToken("d"), Finish, Token("!!!"), Position]);
  }

  lemma RuleListRecoverTerminatorVerdict()
    ensures Verify(Outcome(true, 9, [Token("ab"), Token("c"), Token("ab"), ExpectedLiteral(5, "c", 0), Recovery, ErrorToken("d"), Finish, Token("!!!"), Position], Count(1))) == TestResult(RecoveredError, Count(1), [Token("ab"), Token("c"), Token("ab"), ExpectedLiteral(5, "c", 0), Recovery, ErrorToken("d"), Finish, Token("!!!"), Position])
  {
    VerifyRecovered(Outcome(true, 9, [Token("ab"), Token("c"), Token("ab"), ExpectedLiteral(5, "c", 0), Recovery, ErrorToken("d"), Finish, Token("!!!"), Position], Count(1)), 3);
  }

  /** `.list(branch, sep)` on "". */
  lemma BranchSepListEmpty()
    ensures Verify(ListF(BranchSepList, "", 0, [])) == TestResult(FatalError, Count(0), [ExpectedLiteral(0, "ab", 0), Recovery, Cancel, Cancel])
  {
    BranchSepListEmptyStep0();
    BranchSepListEmptyVerdict();
  }

  lemma BranchSepListEmptyStep0()
    ensures ListF(BranchSepList, "", 0, []) == Outcome(false, 0, [ExpectedLiteral(0, "ab", 0), Recovery, Cancel], Count(0))
  {
    var s := "";
    BranchSepListEmptyStep1();
  }

  lemma BranchSepListEmptyStep1()
    ensures Resume(BranchSepList, "", AtItem, 0, 0, []) == Outcome(false, 0, [ExpectedLiteral(0, "ab", 0), Recovery, Cancel], Count(0))
  {
    var s := "";
    assert s[0..0] == "";
    assert "ab"[..0] == "";
    Miss("ab", s, 0, 0, "");
    BranchSepListEmptyStep1Part0(s);
    BranchSepListEmptyStep2();
  }

  lemma BranchSepListEmptyStep1Part0(s: string)
    requires s == ""
    ensures StepsF(BranchItem.steps, s, 0, []) == Outcome(false, 0, [ExpectedLiteral(0, "ab", 0)], NoValue)
  {
    StepsWhole(BranchItem.steps, s, 0, []);
    assert s[0..0] == "";
    assert "ab"[..0] == "";
    LitMiss(BranchItem.steps, 0, "ab", s, 0, 0, "", [], [ExpectedLiteral(0, "ab", 0)]);
  }

  lemma BranchSepListEmptyStep2()
    ensures Resume(BranchSepList, "", AtRecovery, 0, 0, [ExpectedLiteral(0, "ab", 0)]) == Outcome(false, 0, [ExpectedLiteral(0, "ab", 0), Recovery, Cancel], Count(0))
  {
    var s := "";
    assert ListStops(BranchSepList) == ["!!!", ","];
    assert s[0..0] == "";
    assert "!!!"[..0] == "";
    Miss("!!!", s, 0, 0, "");
    assert s[0..0] == "";
    assert ","[..0] == "";
    Miss(",", s, 0, 0, "");
    Any2("!!!", ",", s, 0);
    ResyncHere(ListStops(BranchSepList), BranchSepList.term.limits, s, 0);
    BranchSepListEmptyStep2Part0(s);
  }

  lemma BranchSepListEmptyStep2Part0(s: string)
    requires s == ""
    ensures Skip(s, 0, 0, [ExpectedLiteral(0, "ab", 0)] + [Recovery]) == [ExpectedLiteral(0, "ab", 0), Recovery]
  {
    SkipDone(s, 0, [ExpectedLiteral(0, "ab", 0)] + [Recovery]);
  }

  lemma BranchSepListEmptyVerdict()
    ensures Verify(Outcome(false, 0, [ExpectedLiteral(0, "ab", 0), Recovery, Cancel], Count(0))) == TestResult(FatalError, Count(0), [ExpectedLiteral(0, "ab", 0), Recovery, Cancel, Cancel])
  {
    VerifyFatal(Outcome(false, 0, [ExpectedLiteral(0, "ab", 0), Recovery, Cancel], Count(0)), [ExpectedLiteral(0, "ab", 0), Recovery, Cancel, Cancel]);
  }

  /** `.list(branch, sep)` on "!!!". */
  lemma BranchSepListTerminatorOnly()
    ensures Verify(ListF(BranchSepList, "!!!", 0, [])) == TestResult(RecoveredError, Count(0), [ExpectedLiteral(0, "ab", 0), Recovery, Finish, Token("!!!"), Position])
  {
    BranchSepListTerminatorOnlyStep0();
    BranchSepListTerminatorOnlyVerdict();
  }

  lemma BranchSepListTerminatorOnlyStep0()
    ensures ListF(BranchSepList, "!!!", 0, []) == Outcome(true, 3, [ExpectedLiteral(0, "ab", 0), Recovery, Finish, Token("!!!"), Position], Count(0))
  {
    var s := "!!!";
    BranchSepListTerminatorOnlyStep1();
  }

  lemma BranchSepListTerminatorOnlyStep1()
    ensures Resume(BranchSepList, "!!!", AtItem, 0, 0, []) == Outcome(true, 3, [ExpectedLiteral(0, "ab", 0), Recovery, Finish, Token("!!!"), Position], Count(0))
  {
    var s := "!!!";
    assert s[0..0] == "";
    assert "ab"[..0] == "";
    Miss("ab", s, 0, 0, "");
    BranchSepListTerminatorOnlyStep1Part0(s);
    BranchSepListTerminatorOnlyStep2();
  }

  lemma BranchSepListTerminatorOnlyStep1Part0(s: string)
    requires s == "!!!"
    ensures StepsF(BranchItem.steps, s, 0, []) == Outcome(false, 0, [ExpectedLiteral(0, "ab", 0)], NoValue)
  {
    StepsWhole(BranchItem.steps, s, 0, []);
    assert s[0..0] == "";
    assert "ab"[..0] == "";
    LitMiss(BranchItem.steps, 0, "ab", s, 0, 0, "", [], [ExpectedLiteral(0, "ab", 0)]);
  }

  lemma BranchSepListTerminatorOnlyStep2()
    ensures Resume(BranchSepList, "!!!", AtRecovery, 0, 0, [ExpectedLiteral(0, "ab", 0)]) == Outcome(true, 3, [ExpectedLiteral(0, "ab", 0), Recovery, Finish, Token("!!!"), Position], Count(0))
  {
    var s := "!!!";
    assert ListStops(BranchSepList) == ["!!!", ","];
    assert s[0..3] == "!!!";
    Hit("!!!", s, 0);
    assert s[0..0] == "";
    assert ","[..0] == "";
    Miss(",", s, 0, 0, "");
    Any2("!!!", ",", s, 0);
    assert s[0..0] == "";
    assert ";"[..0] == "";
    Miss(";", s, 0, 0, "");
    Any1(";", s, 0);
    ResyncHere(ListStops(BranchSepList), BranchSepList.term.limits, s, 0);
    BranchSepListTerminatorOnlyStep2Part0(s);
    BranchSepListTerminatorOnlyStep2Part1(s);
  }

  lemma BranchSepListTerminatorOnlyStep2Part0(s: string)
    requires s == "!!!"
    ensures Skip(s, 0, 0, [ExpectedLiteral(0, "ab", 0)] + [Recovery]) == [ExpectedLiteral(0, "ab", 0), Recovery]
  {
    SkipDone(s, 0, [ExpectedLiteral(0, "ab", 0)] + [Recovery]);
  }

  lemma BranchSepListTerminatorOnlyStep2Part1(s: string)
    requires s == "!!!"
    ensures StepsF(TermRule(TestTerm).steps, s, 0, [ExpectedLiteral(0, "ab", 0), Recovery] + [Finish]) == Outcome(true, 3, [ExpectedLiteral(0, "ab", 0), Recovery, Finish, Token("!!!"), Position], NoValue)
  {
    StepsWhole(TermRule(TestTerm).steps, s, 0, [ExpectedLiteral(0, "ab", 0), Recovery] + [Finish]);
    assert s[0..3] == "!!!";
    LitHit(TermRule(TestTerm).steps, 0, "!!!", s, 0, [ExpectedLiteral(0, "ab", 0), Recovery] + [Finish], [ExpectedLiteral(0, "ab", 0), Recovery, Finish, Token("!!!")]);
    PosStep(TermRule(TestTerm).steps, 1, s, 3, [ExpectedLiteral(0, "ab", 0), Recovery, Finish, Token("!!!")], [ExpectedLiteral(0, "ab", 0), Recovery, Finish, Token("!!!"), Position]);
    StepsDone(TermRule(TestTerm).steps, s, 3, [ExpectedLiteral(0, "ab", 0), Recovery, Finish, Token("!!!"), Position]);
  }

  lemma BranchSepListTerminatorOnlyVerdict()
    ensures Verify(Outcome(true, 3, [ExpectedLiteral(0, "ab", 0), Recovery, Finish, Token("!!!"), Position], Count(0))) == TestResult(RecoveredError, Count(0), [ExpectedLiteral(0, "ab", 0), Recovery, Finish, Token("!!!"), Position])
  {
    VerifyRecovered(Outcome(true, 3, [ExpectedLiteral(0, "ab", 0), Recovery, Finish, Token("!!!"), Position], Count(0)), 0);
  }

  /** `.list(branch, sep)` on "abc!!!". */
  lemma BranchSepListOne()
    ensures Verify(ListF(BranchSepList, "abc!!!", 0, [])) == TestResult(Success, Count(1), [Token("ab"), Token("c"), Token("!!!"), Position])
  {
    BranchSepListOneStep0();
    BranchSepListOneVerdict();
  }

  lemma BranchSepListOneStep0()
    ensures ListF(BranchSepList, "abc!!!", 0, []) == Outcome(true, 6, [Token("ab"), Token("c"), Token("!!!"), Position], Count(1))
  {
    var s := "abc!!!";
    BranchSepListOneStep1();
  }

  lemma BranchSepListOneStep1()
    ensures Resume(BranchSepList, "abc!!!", AtItem, 0, 0, []) == Outcome(true, 6, [Token("ab"), Token("c"), Token("!!!"), Position], Count(1))
  {
    var s := "abc!!!";
    assert s[0..2] == "ab";
    Hit("ab", s, 0);
    BranchSepListOneStep1Part0(s);
    BranchSepListOneStep2();
  }

  lemma BranchSepListOneStep1Part0(s: string)
    requires s == "abc!!!"
    ensures StepsF(BranchItem.steps, s, 0, []) == Outcome(true, 3, [Token("ab"), Token("c")], NoValue)
  {
    StepsWhole(BranchItem.steps, s, 0, []);
    assert s[0..2] == "ab";
    LitHit(BranchItem.steps, 0, "ab", s, 0, [], [Token("ab")]);
    assert s[2..3] == "c";
    LitHit(BranchItem.steps, 1, "c", s, 2, [Token("ab")], [Token("ab"), Token("c")]);
    StepsDone(BranchItem.steps, s, 3, [Token("ab"), Token("c")]);
  }

  lemma BranchSepListOneStep2()
    ensures Resume(BranchSepList, "abc!!!", AtTerminator, 3, 1, [Token("ab"), Token("c")]) == Outcome(true, 6, [Token("ab"), Token("c"), Token("!!!"), Position], Count(1))
  {
    var s := "abc!!!";
    assert s[3..6] == "!!!";
    Hit("!!!", s, 3);
    BranchSepListOneStep2Part0(s);
  }

  lemma BranchSepListOneStep2Part0(s: string)
    requires s == "abc!!!"
    ensures StepsF(TermRule(TestTerm).steps, s, 3, [Token("ab"), Token("c")]) == Outcome(true, 6, [Token("ab"), Token("c"), Token("!!!"), Position], NoValue)
  {
    StepsWhole(TermRule(TestTerm).steps, s, 3, [Token("ab"), Token("c")]);
    assert s[3..6] == "!!!";
    LitHit(TermRule(TestTerm).steps, 0, "!!!", s, 3, [Token("ab"), Token("c")], [Token("ab"), Token("c"), Token("!!!")]);
    PosStep(TermRule(TestTerm).steps, 1, s, 6, [Token("ab"), Token("c"), Token("!!!")], [Token("ab"), Token("c"), Token("!!!"), Position]);
    StepsDone(TermRule(TestTerm).steps, s, 6, [Token("ab"), Token("c"), Token("!!!"), Position]);
  }

  lemma BranchSepListOneVerdict()
    ensures Verify(Outcome(true, 6, [Token("ab"), Token("c"), Token("!!!"), Position], Count(1))) == TestResult(Success, Count(1), [Token("ab"), Token("c"), Token("!!!"), Position])
  {
    VerifySuccess(Outcome(true, 6, [Token("ab"), Token("c"), Token("!!!"), Position], Count(1)));
  }

  /** `.list(branch, sep)` on "abc,,abc!!!". */
  lemma BranchSepListTwo()
    ensures Verify(ListF(BranchSepList, "abc,,abc!!!", 0, [])) == TestResult(Success, Count(2), [Token("ab"), Token("c"), Token(","), Token(","), Token("ab"), Token("c"), Token("!!!"), Position])
  {
    BranchSepListTwoStep0();
    BranchSepListTwoVerdict();
  }

  lemma BranchSepListTwoStep0()
    ensures ListF(BranchSepList, "abc,,abc!!!", 0, []) == Outcome(true, 11, [Token("ab"), Token("c"), Token(","), Token(","), Token("ab"), Token("c"), Token("!!!"), Position], Count(2))
  {
    var s := "abc,,abc!!!";
    BranchSepListTwoStep1();
  }

  lemma BranchSepListTwoStep1()
    ensures Resume(BranchSepList, "abc,,abc!!!", AtItem, 0, 0, []) == Outcome(true, 11, [Token("ab"), Token("c"), Token(","), Token(","), Token("ab"), Token("c"), Token("!!!"), Position], Count(2))
  {
    var s := "abc,,abc!!!";
    assert s[0..2] == "ab";
    Hit("ab", s, 0);
    BranchSepListTwoStep1Part0(s);
    BranchSepListTwoStep2();
  }

  lemma BranchSepListTwoStep1Part0(s: string)
    requires s == "abc,,abc!!!"
    ensures StepsF(BranchItem.steps, s, 0, []) == Outcome(true, 3, [Token("ab"), Token("c")], NoValue)
  {
    StepsWhole(BranchItem.steps, s, 0, []);
    assert s[0..2] == "ab";
    LitHit(BranchItem.steps, 0, "ab", s, 0, [], [Token("ab")]);
    assert s[2..3] == "c";
    LitHit(BranchItem.steps, 1, "c", s, 2, [Token("ab")], [Token("ab"), Token("c")]);
    StepsDone(BranchItem.steps, s, 3, [Token("ab"), Token("c")]);
  }

  lemma BranchSepListTwoStep2()
    ensures Resume(BranchSepList, "abc,,abc!!!", AtTerminator, 3, 1, [Token("ab"), Token("c")]) == Outcome(true, 11, [Token("ab"), Token("c"), Token(","), Token(","), Token("ab"), Token("c"), Token("!!!"), Position], Count(2))
  {
    var s := "abc,,abc!!!";
    assert s[3..3] == "";
    assert "!!!"[..0] == "";
    Miss("!!!", s, 3, 0, "");
    BranchSepListTwoStep3();
  }

  lemma BranchSepListTwoStep3()
    ensures Resume(BranchSepList, "abc,,abc!!!", AtSeparator, 3, 1, [Token("ab"), Token("c")]) == Outcome(true, 11, [Token("ab"), Token("c"), Token(","), Token(","), Token("ab"), Token("c"), Token("!!!"), Position], Count(2))
  {
    var s := "abc,,abc!!!";
    BranchSepListTwoStep3Part0(s);
    assert s[5..5] == "";
    assert "!!!"[..0] == "";
    Miss("!!!", s, 5, 0, "");
    BranchSepListTwoStep4();
  }

  lemma BranchSepListTwoStep3Part0(s: string)
    requires s == "abc,,abc!!!"
    ensures StepsF(DoubleComma.steps, s, 3, [Token("ab"), Token("c")]) == Outcome(true, 5, [Token("ab"), Token("c"), Token(","), Token(",")], NoValue)
  {
    StepsWhole(DoubleComma.steps, s, 3, [Token("ab"), Token("c")]);
    assert s[3..4] == ",";
    LitHit(DoubleComma.steps, 0, ",", s, 3, [Token("ab"), Token("c")], [Token("ab"), Token("c"), Token(",")]);
    assert s[4..5] == ",";
    LitHit(DoubleComma.steps, 1, ",", s, 4, [Token("ab"), Token("c"), Token(",")], [Token("ab"), Token("c"), Token(","), Token(",")]);
    StepsDone(DoubleComma.steps, s, 5, [Token("ab"), Token("c"), Token(","), Token(",")]);
  }

  lemma BranchSepListTwoStep4()
    ensures Resume(BranchSepList, "abc,,abc!!!", AtItem, 5, 1, [Token("ab"), Token("c"), Token(","), Token(",")]) == Outcome(true, 11, [Token("ab"), Token("c"), Token(","), Token(","), Token("ab"), Token("c"), Token("!!!"), Position], Count(2))
  {
    var s := "abc,,abc!!!";
    assert s[5..7] == "ab";
    Hit("ab", s, 5);
    BranchSepListTwoStep4Part0(s);
    BranchSepListTwoStep5();
  }

  lemma BranchSepListTwoStep4Part0(s: string)
    requires s == "abc,,abc!!!"
    ensures StepsF(BranchItem.steps, s, 5, [Token("ab"), Token("c"), Token(","), Token(",")]) == Outcome(true, 8, [Token("ab"), Token("c"), Token(","), Token(","), Token("ab"), Token("c")], NoValue)
  {
    StepsWhole(BranchItem.steps, s, 5, [Token("ab"), Token("c"), Token(","), Token(",")]);
    assert s[5..7] == "ab";
    LitHit(BranchItem.steps, 0, "ab", s, 5, [Token("ab"), Token("c"), Token(","), Token(",")], [Token("ab"), Token("c"), Token(","), Token(","), Token("ab")]);
    assert s[7..8] == "c";
    LitHit(BranchItem.steps, 1, "c", s, 7, [Token("ab"), Token("c"), Token(","), Token(","), Token("ab")], [Token("ab"), Token("c"), Token(","), Token(","), Token("ab"), Token("c")]);
    StepsDone(BranchItem.steps, s, 8, [Token("ab"), Token("c"), Token(","), Token(","), Token("ab"), Token("c")]);
  }

  lemma BranchSepListTwoStep5()
    ensures Resume(BranchSepList, "abc,,abc!!!", AtTerminator, 8, 2, [Token("ab"), Token("c"), Token(","), Token(","), Token("ab"), Token("c")]) == Outcome(true, 11, [Token("ab"), Token("c"), Token(","), Token(","), Token("ab"), Token("c"), Token("!!!"), Position], Count(2))
  {
    var s := "abc,,abc!!!";
    assert s[8..11] == "!!!";
    Hit("!!!", s, 8);
    BranchSepListTwoStep5Part0(s);
  }

  lemma BranchSepListTwoStep5Part0(s: string)
    requires s == "abc,,abc!!!"
    ensures StepsF(TermRule(TestTerm).steps, s, 8, [Token("ab"), Token("c"), Token(","), Token(","), Token("ab"), Token("c")]) == Outcome(true, 11, [Token("ab"), Token("c"), Token(","), Token(","), Token("ab"), Token("c"), Token("!!!"), Position], NoValue)
  {
    StepsWhole(TermRule(TestTerm).steps, s, 8, [Token("ab"), Token("c"), Token(","), Token(","), Token("ab"), Token("c")]);
    assert s[8..11] == "!!!";
    LitHit(TermRule(TestTerm).steps, 0, "!!!", s, 8, [Token("ab"), Token("c"), Token(","), Token(","), Token("ab"), Token("c")], [Token("ab"), Token("c"), Token(","), Token(","), Token("ab"), Token("c"), Token("!!!")]);
    PosStep(TermRule(TestTerm).steps, 1, s, 11, [Token("ab"), Token("c"), Token(","), Token(","), Token("ab"), Token("c"), Token("!!!")], [Token("ab"), Token("c"), Token(","), Token(","), Token("ab"), Token("c"), Token("!!!"), Position]);
    StepsDone(TermRule(TestTerm).steps, s, 11, [Token("ab"), Token("c"), Token(","), Token(","), Token("ab"), Token("c"), Token("!!!"), Position]);
  }

  lemma BranchSepListTwoVerdict()
    ensures Verify(Outcome(true, 11, [Token("ab"), Token("c"), Token(","), Token(","), Token("ab"), Token("c"), Token("!!!"), Position], Count(2))) == TestResult(Success, Count(2), [Token("ab"), Token("c"), Token(","), Token(","), Token("ab"), Token("c"), Token("!!!"), Position])
  {
    VerifySuccess(Outcome(true, 11, [Token("ab"), Token("c"), Token(","), Token(","), Token("ab"), Token("c"), Token("!!!"), Position], Count(2)));
  }

  /** `.list(branch, sep)` on "abc,,abc,,abc!!!". */
  lemma BranchSepListThree()
    ensures Verify(ListF(BranchSepList, "abc,,abc,,abc!!!", 0, [])) == TestResult(Success, Count(3), [Token("ab"), Token("c"), Token(","), Token(","), Token("ab"), Token("c"), Token(","), Token(","), Token("ab"), Token("c"), Token("!!!"), Position])
  {
    BranchSepListThreeStep0();
    BranchSepListThreeVerdict();
  }

  lemma BranchSepListThreeStep0()
    ensures ListF(BranchSepList, "abc,,abc,,abc!!!", 0, []) == Outcome(true, 16, [Token("ab"), Token("c"), Token(","), Token(","), Token("ab"), Token("c"), Token(","), Token(","), Token("ab"), Token("c"), Token("!!!"), Position], Count(3))
  {
    var s := "abc,,abc,,abc!!!";
    BranchSepListThreeStep1();
  }

  lemma BranchSepListThreeStep1()
    ensures Resume(BranchSepList, "abc,,abc,,abc!!!", AtItem, 0, 0, []) == Outcome(true, 16, [Token("ab"), Token("c"), Token(","), Token(","), Token("ab"), Token("c"), Token(","), Token(","), Token("ab"), Token("c"), Token("!!!"), Position], Count(3))
  {
    var s := "abc,,abc,,abc!!!";
    assert s[0..2] == "ab";
    Hit("ab", s, 0);
    BranchSepListThreeStep1Part0(s);
    BranchSepListThreeStep2();
  }

  lemma BranchSepListThreeStep1Part0(s: string)
    requires s == "abc,,abc,,abc!!!"
    ensures StepsF(BranchItem.steps, s, 0, []) == Outcome(true, 3, [Token("ab"), Token("c")], NoValue)
  {
    StepsWhole(BranchItem.steps, s, 0, []);
    assert s[0..2] == "ab";
    LitHit(BranchItem.steps, 0, "ab", s, 0, [], [Token("ab")]);
    assert s[2..3] == "c";
    LitHit(BranchItem.steps, 1, "c", s, 2, [Token("ab")], [Token("ab"), Token("c")]);
    StepsDone(BranchItem.steps, s, 3, [Token("ab"), Token("c")]);
  }

  lemma BranchSepListThreeStep2()
    ensures Resume(BranchSepList, "abc,,abc,,abc!!!", AtTerminator, 3, 1, [Token("ab"), Token("c")]) == Outcome(true, 16, [Token("ab"), Token("c"), Token(","), Token(","), Token("ab"), Token("c"), Token(","), Token(","), Token("ab"), Token("c"), Token("!!!"), Position], Count(3))
  {
    var s := "abc,,abc,,abc!!!";
    assert s[3..3] == "";
    assert "!!!"[..0] == "";
    Miss("!!!", s, 3, 0, "");
    BranchSepListThreeStep3();
  }

  lemma BranchSepListThreeStep3()
    ensures Resume(BranchSepList, "abc,,abc,,abc!!!", AtSeparator, 3, 1, [Token("ab"), Token("c")]) == Outcome(true, 16, [Token("ab"), Token("c"), Token(","), Token(","), Token("ab"), Token("c"), Token(","), Token(","), Token("ab"), Token("c"), Token("!!!"), Position], Count(3))
  {
    var s := "abc,,abc,,abc!!!";
    BranchSepListThreeStep3Part0(s);
    assert s[5..5] == "";
    assert "!!!"[..0] == "";
    Miss("!!!", s, 5, 0, "");
    BranchSepListThreeStep4();
  }

  lemma BranchSepListThreeStep3Part0(s: string)
    requires s == "abc,,abc,,abc!!!"
    ensures StepsF(DoubleComma.steps, s, 3, [Token("ab"), Token("c")]) == Outcome(true, 5, [Token("ab"), Token("c"), Token(","), Token(",")], NoValue)
  {
    StepsWhole(DoubleComma.steps, s, 3, [Token("ab"), Token("c")]);
    assert s[3..4] == ",";
    LitHit(DoubleComma.steps, 0, ",", s, 3, [Token("ab"), Token("c")], [Token("ab"), Token("c"), Token(",")]);
    assert s[4..5] == ",";
    LitHit(DoubleComma.steps, 1, ",", s, 4, [Token("ab"), Token("c"), Token(",")], [Token("ab"), Token("c"), Token(","), Token(",")]);
    StepsDone(DoubleComma.steps, s, 5, [Token("ab"), Token("c"), Token(","), Token(",")]);
  }

  lemma BranchSepListThreeStep4()
    ensures Resume(BranchSepList, "abc,,abc,,abc!!!", AtItem, 5, 1, [Token("ab"), Token("c"), Token(","), Token(",")]) == Outcome(true, 16, [Token("ab"), Token("c"), Token(","), Token(","), Token("ab"), Token("c"), Token(","), Token(","), Token("ab"), Token("c"), Token("!!!"), Position], Count(3))
  {
    var s := "abc,,abc,,abc!!!";
    assert s[5..7] == "ab";
    Hit("ab", s, 5);
    BranchSepListThreeStep4Part0(s);
    BranchSepListThreeStep5();
  }

  lemma BranchSepListThreeStep4Part0(s: string)
    requires s == "abc,,abc,,abc!!!"
    ensures StepsF(BranchItem.steps, s, 5, [Token("ab"), Token("c"), Token(","), Token(",")]) == Outcome(true, 8, [Token("ab"), Token("c"), Token(","), Token(","), Token("ab"), Token("c")], NoValue)
  {
    StepsWhole(BranchItem.steps, s, 5, [Token("ab"), Token("c"), Token(","), Token(",")]);
    assert s[5..7] == "ab";
    LitHit(BranchItem.steps, 0, "ab", s, 5, [Token("ab"), Token("c"), Token(","), Token(",")], [Token("ab"), Token("c"), Token(","), Token(","), Token("ab")]);
    assert s[7..8] == "c";
    LitHit(BranchItem.steps, 1, "c", s, 7, [Token("ab"), Token("c"), Token(","), Token(","), Token("ab")], [Token("ab"), Token("c"), Token(","), Token(","), Token("ab"), Token("c")]);
    StepsDone(BranchItem.steps, s, 8, [Token("ab"), Token("c"), Token(","), Token(","), Token("ab"), Token("c")]);
  }

  lemma BranchSepListThreeStep5()
    ensures Resume(BranchSepList, "abc,,abc,,abc!!!", AtTerminator, 8, 2, [Token("ab"), Token("c"), Token(","), Token(","), Token("ab"), Token("c")]) == Outcome(true, 16, [Token("ab"), Token("c"), Token(","), Token(","), Token("ab"), Token("c"), Token(","), Token(","), Token("ab"), Token("c"), Token("!!!"), Position], Count(3))
  {
    var s := "abc,,abc,,abc!!!";
    assert s[8..8] == "";
    assert "!!!"[..0] == "";
    Miss("!!!", s, 8, 0, "");
    BranchSepListThreeStep6();
  }

  lemma BranchSepListThreeStep6()
    ensures Resume(BranchSepList, "abc,,abc,,abc!!!", AtSeparator, 8, 2, [Token("ab"), Token("c"), Token(","), Token(","), Token("ab"), Token("c")]) == Outcome(true, 16, [Token("ab"), Token("c"), Token(","), Token(","), Token("ab"), Token("c"), Token(","), Token(","), Token("ab"), Token("c"), Token("!!!"), Position], Count(3))
  {
    var s := "abc,,abc,,abc!!!";
    BranchSepListThreeStep6Part0(s);
    assert s[10..10] == "";
    assert "!!!"[..0] == "";
    Miss("!!!", s, 10, 0, "");
    BranchSepListThreeStep7();
  }

  lemma BranchSepListThreeStep6Part0(s: string)
    requires s == "abc,,abc,,abc!!!"
    ensures StepsF(DoubleComma.steps, s, 8, [Token("ab"), Token("c"), Token(","), Token(","), Token("ab"), Token("c")]) == Outcome(true, 10, [Token("ab"), Token("c"), Token(","), Token(","), Token("ab"), Token("c"), Token(","), Token(",")], NoValue)
  {
    StepsWhole(DoubleComma.steps, s, 8, [Token("ab"), Token("c"), Token(","), Token(","), Token("ab"), Token("c")]);
    assert s[8..9] == ",";
    LitHit(DoubleComma.steps, 0, ",", s, 8, [Token("ab"), Token("c"), Token(","), Token(","), Token("ab"), Token("c")], [Token("ab"), Token("c"), Token(","), Token(","), Token("ab"), Token("c"), Token(",")]);
    assert s[9..10] == ",";
    LitHit(DoubleComma.steps, 1, ",", s, 9, [Token("ab"), Token("c"), Token(","), Token(","), Token("ab"), Token("c"), Token(",")], [Token("ab"), Token("c"), Token(","), Token(","), Token("ab"), Token("c"), Token(","), Token(",")]);
    StepsDone(DoubleComma.steps, s, 10, [Token("ab"), Token("c"), Token(","), Token(","), Token("ab"), Token("c"), Token(","), Token(",")]);
  }

  lemma BranchSepListThreeStep7()
    ensures Resume(BranchSepList, "abc,,abc,,abc!!!", AtItem, 10, 2, [Token("ab"), Token("c"), Token(","), Token(","), Token("ab"), Token("c"), Token(","), Token(",")]) == Outcome(true, 16, [Token("ab"), Token("c"), Token(","), Token(","), Token("ab"), Token("c"), Token(","), Token(","), Token("ab"), Token("c"), Token("!!!"), Position], Count(3))
  {
    var s := "abc,,abc,,abc!!!";
    assert s[10..12] == "ab";
    Hit("ab", s, 10);
    BranchSepListThreeStep7Part0(s);
    BranchSepListThreeStep8();
  }

  lemma BranchSepListThreeStep7Part0(s: string)
    requires s == "abc,,abc,,abc!!!"
    ensures StepsF(BranchItem.steps, s, 10, [Token("ab"), Token("c"), Token(","), Token(","), Token("ab"), Token("c"), Token(","), Token(",")]) == Outcome(true, 13, [Token("ab"), Token("c"), Token(","), Token(","), Token("ab"), Token("c"), Token(","), Token(","), Token("ab"), Token("c")], NoValue)
  {
    StepsWhole(BranchItem.steps, s, 10, [Token("ab"), Token("c"), Token(","), Token(","), Token("ab"), Token("c"), Token(","), Token(",")]);
    assert s[10..12] == "ab";
    LitHit(BranchItem.steps, 0, "ab", s, 10, [Token("ab"), Token("c"), Token(","), Token(","), Token("ab"), Token("c"), Token(","), Token(",")], [Token("ab"), Token("c"), Token(","), Token(","), Token("ab"), Token("c"), Token(","), Token(","), Token("ab")]);
    assert s[12..13] == "c";
    LitHit(BranchItem.steps, 1, "c", s, 12, [Token("ab"), Token("c"), Token(","), Token(","), Token("ab"), Token("c"), Token(","), Token(","), Token("ab")], [Token("ab"), Token("c"), Token(","), Token(","), Token("ab"), Token("c"), Token(","), Token(","), Token("ab"), Token("c")]);
    StepsDone(BranchItem.steps, s, 13, [Token("ab"), Token("c"), Token(","), Token(","), Token("ab"), Token("c"), Token(","), Token(","), Token("ab"), Token("c")]);
  }

  lemma BranchSepListThreeStep8()
    ensures Resume(BranchSepList, "abc,,abc,,abc!!!", AtTerminator, 13, 3, [Token("ab"), Token("c"), Token(","), Token(","), Token("ab"), Token("c"), Token(","), Token(","), Token("ab"), Token("c")]) == Outcome(true, 16, [Token("ab"), Token("c"), Token(","), Token(","), Token("ab"), Token("c"), Token(","), Token(","), Token("ab"), Token("c"), Token("!!!"), Position], Count(3))
  {
    var s := "abc,,abc,,abc!!!";
    assert s[13..16] == "!!!";
    Hit("!!!", s, 13);
    BranchSepListThreeStep8Part0(s);
  }

  lemma BranchSepListThreeStep8Part0(s: string)
    requires s == "abc,,abc,,abc!!!"
    ensures StepsF(TermRule(TestTerm).steps, s, 13, [Token("ab"), Token("c"), Token(","), Token(","), Token("ab"), Token("c"), Token(","), Token(","), Token("ab"), Token("c")]) == Outcome(true, 16, [Token("ab"), Token("c"), Token(","), Token(","), Token("ab"), Token("c"), Token(","), Token(","), Token("ab"), Token("c"), Token("!!!"), Position], NoValue)
  {
    StepsWhole(TermRule(TestTerm).steps, s, 13, [Token("ab"), Token("c"), Token(","), Token(","), Token("ab"), Token("c"), Token(","), Token(","), Token("ab"), Token("c")]);
    assert s[13..16] == "!!!";
    LitHit(TermRule(TestTerm).steps, 0, "!!!", s, 13, [Token("ab"), Token("c"), Token(","), Token(","), Token("ab"), Token("c"), Token(","), Token(","), Token("ab"), Token("c")], [Token("ab"), Token("c"), Token(","), Token(","), Token("ab"), Token("c"), Token(","), Token(","), Token("ab"), Token("c"), Token("!!!")]);
    PosStep(TermRule(TestTerm).steps, 1, s, 16, [Token("ab"), Token("c"), Token(","), Token(","), Token("ab"), Token("c"), Token(","), Token(","), Token("ab"), Token("c"), Token("!!!")], [Token("ab"), Token("c"), Token(","), Token(","), Token("ab"), Token("c"), Token(","), Token(","), Token("ab"), Token("c"), Token("!!!"), Position]);
    StepsDone(TermRule(TestTerm).steps, s, 16, [Token("ab"), Token("c"), Token(","), Token(","), Token("ab"), Token("c"), Token(","), Token(","), Token("ab"), Token("c"), Token("!!!"), Position]);
  }

  lemma BranchSepListThreeVerdict()
    ensures Verify(Outcome(true, 16, [Token("ab"), Token("c"), Token(","), Token(","), Token("ab"), Token("c"), Token(","), Token(","), Token("ab"), Token("c"), Token("!!!"), Position], Count(3))) == TestResult(Success, Count(3), [Token("ab"), Token("c"), Token(","), Token(","), Token("ab"), Token("c"), Token(","), Token(","), Token("ab"), Token("c"), Token("!!!"), Position])
  {
    VerifySuccess(Outcome(true, 16, [Token("ab"), Token("c"), Token(","), Token(","), Token("ab"), Token("c"), Token(","), Token(","), Token("ab"), Token("c"), Token("!!!"), Position], Count(3)));
  }

  /** `.list(branch, sep)` on "abc,,abc,,!!!": a trailing separator is an error, the list is kept. */
  lemma BranchSepListTrailing()
    ensures Verify(ListF(BranchSepList, "abc,,abc,,!!!", 0, [])) == TestResult(RecoveredError, Count(2), [Token("ab"), Token("c"), Token(","), Token(","), Token("ab"), Token("c"), Token(","), Token(","), Error(8, 10, TrailingSeparatorMessage), Token("!!!"), Position])
  {
    BranchSepListTrailingStep0();
    BranchSepListTrailingVerdict();
  }

  lemma BranchSepListTrailingStep0()
    ensures ListF(BranchSepList, "abc,,abc,,!!!", 0, []) == Outcome(true, 13, [Token("ab"), Token("c"), Token(","), Token(","), Token("ab"), Token("c"), Token(","), Token(","), Error(8, 10, TrailingSeparatorMessage), Token("!!!"), Position], Count(2))
  {
    var s := "abc,,abc,,!!!";
    BranchSepListTrailingStep1();
  }

  lemma BranchSepListTrailingStep1()
    ensures Resume(BranchSepList, "abc,,abc,,!!!", AtItem, 0, 0, []) == Outcome(true, 13, [Token("ab"), Token("c"), Token(","), Token(","), Token("ab"), Token("c"), Token(","), Token(","), Error(8, 10, TrailingSeparatorMessage), Token("!!!"), Position], Count(2))
  {
    var s := "abc,,abc,,!!!";
    assert s[0..2] == "ab";
    Hit("ab", s, 0);
    BranchSepListTrailingStep1Part0(s);
    BranchSepListTrailingStep2();
  }

  lemma BranchSepListTrailingStep1Part0(s: string)
    requires s == "abc,,abc,,!!!"
    ensures StepsF(BranchItem.steps, s, 0, []) == Outcome(true, 3, [Token("ab"), Token("c")], NoValue)
  {
    StepsWhole(BranchItem.steps, s, 0, []);
    assert s[0..2] == "ab";
    LitHit(BranchItem.steps, 0, "ab", s, 0, [], [Token("ab")]);
    assert s[2..3] == "c";
    LitHit(BranchItem.steps, 1, "c", s, 2, [Token("ab")], [Token("ab"), Token("c")]);
    StepsDone(BranchItem.steps, s, 3, [Token("ab"), Token("c")]);
  }

  lemma BranchSepListTrailingStep2()
    ensures Resume(BranchSepList, "abc,,abc,,!!!", AtTerminator, 3, 1, [Token("ab"), Token("c")]) == Outcome(true, 13, [Token("ab"), Token("c"), Token(","), Token(","), Token("ab"), Token("c"), Token(","), Token(","), Error(8, 10, TrailingSeparatorMessage), Token("!!!"), Position], Count(2))
  {
    var s := "abc,,abc,,!!!";
    assert s[3..3] == "";
    assert "!!!"[..0] == "";
    Miss("!!!", s, 3, 0, "");
    BranchSepListTrailingStep3();
  }

  lemma BranchSepListTrailingStep3()
    ensures Resume(BranchSepList, "abc,,abc,,!!!", AtSeparator, 3, 1, [Token("ab"), Token("c")]) == Outcome(true, 13, [Token("ab"), Token("c"), Token(","), Token(","), Token("ab"), Token("c"), Token(","), Token(","), Error(8, 10, TrailingSeparatorMessage), Token("!!!"), Position], Count(2))
  {
    var s := "abc,,abc,,!!!";
    BranchSepListTrailingStep3Part0(s);
    assert s[5..5] == "";
    assert "!!!"[..0] == "";
    Miss("!!!", s, 5, 0, "");
    BranchSepListTrailingStep4();
  }

  lemma BranchSepListTrailingStep3Part0(s: string)
    requires s == "abc,,abc,,!!!"
    ensures StepsF(DoubleComma.steps, s, 3, [Token("ab"), Token("c")]) == Outcome(true, 5, [Token("ab"), Token("c"), Token(","), Token(",")], NoValue)
  {
    StepsWhole(DoubleComma.steps, s, 3, [Token("ab"), Token("c")]);
    assert s[3..4] == ",";
    LitHit(DoubleComma.steps, 0, ",", s, 3, [Token("ab"), Token("c")], [Token("ab"), Token("c"), Token(",")]);
    assert s[4..5] == ",";
    LitHit(DoubleComma.steps, 1, ",", s, 4, [Token("ab"), Token("c"), Token(",")], [Token("ab"), Token("c"), Token(","), Token(",")]);
    StepsDone(DoubleComma.steps, s, 5, [Token("ab"), Token("c"), Token(","), Token(",")]);
  }

  lemma BranchSepListTrailingStep4()
    ensures Resume(BranchSepList, "abc,,abc,,!!!", AtItem, 5, 1, [Token("ab"), Token("c"), Token(","), Token(",")]) == Outcome(true, 13, [Token("ab"), Token("c"), Token(","), Token(","), Token("ab"), Token("c"), Token(","), Token(","), Error(8, 10, TrailingSeparatorMessage), Token("!!!"), Position], Count(2))
  {
    var s := "abc,,abc,,!!!";
    assert s[5..7] == "ab";
    Hit("ab", s, 5);
    BranchSepListTrailingStep4Part0(s);
    BranchSepListTrailingStep5();
  }

  lemma BranchSepListTrailingStep4Part0(s: string)
    requires s == "abc,,abc,,!!!"
    ensures StepsF(BranchItem.steps, s, 5, [Token("ab"), Token("c"), Token(","), Token(",")]) == Outcome(true, 8, [Token("ab"), Token("c"), Token(","), Token(","), Token("ab"), Token("c")], NoValue)
  {
    StepsWhole(BranchItem.steps, s, 5, [Token("ab"), Token("c"), Token(","), Token(",")]);
    assert s[5..7] == "ab";
    LitHit(BranchItem.steps, 0, "ab", s, 5, [Token("ab"), Token("c"), Token(","), Token(",")], [Token("ab"), Token("c"), Token(","), Token(","), Token("ab")]);
    assert s[7..8] == "c";
    LitHit(BranchItem.steps, 1, "c", s, 7, [Token("ab"), Token("c"), Token(","), Token(","), Token("ab")], [Token("ab"), Token("c"), Token(","), Token(","), Token("ab"), Token("c")]);
    StepsDone(BranchItem.steps, s, 8, [Token("ab"), Token("c"), Token(","), Token(","), Token("ab"), Token("c")]);
  }

  lemma BranchSepListTrailingStep5()
    ensures Resume(BranchSepList, "abc,,abc,,!!!", AtTerminator, 8, 2, [Token("ab"), Token("c"), Token(","), Token(","), Token("ab"), Token("c")]) == Outcome(true, 13, [Token("ab"), Token("c"), Token(","), Token(","), Token("ab"), Token("c"), Token(","), Token(","), Error(8, 10, TrailingSeparatorMessage), Token("!!!"), Position], Count(2))
  {
    var s := "abc,,abc,,!!!";
    assert s[8..8] == "";
    assert "!!!"[..0] == "";
    Miss("!!!", s, 8, 0, "");
    BranchSepListTrailingStep6();
  }

  lemma BranchSepListTrailingStep6()
    ensures Resume(BranchSepList, "abc,,abc,,!!!", AtSeparator, 8, 2, [Token("ab"), Token("c"), Token(","), Token(","), Token("ab"), Token("c")]) == Outcome(true, 13, [Token("ab"), Token("c"), Token(","), Token(","), Token("ab"), Token("c"), Token(","), Token(","), Error(8, 10, TrailingSeparatorMessage), Token("!!!"), Position], Count(2))
  {
    var s := "abc,,abc,,!!!";
    BranchSepListTrailingStep6Part0(s);
    assert s[10..13] == "!!!";
    Hit("!!!", s, 10);
    BranchSepListTrailingStep6Part1(s);
    SepThenTerm(BranchSepList, s, 8, 2, [Token("ab"), Token("c"), Token(","), Token(","), Token("ab"), Token("c")], Outcome(true, 10, [Token("ab"), Token("c"), Token(","), Token(","), Token("ab"), Token("c"), Token(","), Token(",")], NoValue), [Token("ab"), Token("c"), Token(","), Token(","), Token("ab"), Token("c"), Token(","), Token(",")] + [Error(8, 10, TrailingSeparatorMessage)], Outcome(true, 13, [Token("ab"), Token("c"), Token(","), Token(","), Token("ab"), Token("c"), Token(","), Token(","), Error(8, 10, TrailingSeparatorMessage), Token("!!!"), Position], NoValue));
  }

  lemma BranchSepListTrailingStep6Part0(s: string)
    requires s == "abc,,abc,,!!!"
    ensures StepsF(DoubleComma.steps, s, 8, [Token("ab"), Token("c"), Token(","), Token(","), Token("ab"), Token("c")]) == Outcome(true, 10, [Token("ab"), Token("c"), Token(","), Token(","), Token("ab"), Token("c"), Token(","), Token(",")], NoValue)
  {
    StepsWhole(DoubleComma.steps, s, 8, [Token("ab"), Token("c"), Token(","), Token(","), Token("ab"), Token("c")]);
    assert s[8..9] == ",";
    LitHit(DoubleComma.steps, 0, ",", s, 8, [Token("ab"), Token("c"), Token(","), Token(","), Token("ab"), Token("c")], [Token("ab"), Token("c"), Token(","), Token(","), Token("ab"), Token("c"), Token(",")]);
    assert s[9..10] == ",";
    LitHit(DoubleComma.steps, 1, ",", s, 9, [Token("ab"), Token("c"), Token(","), Token(","), Token("ab"), Token("c"), Token(",")], [Token("ab"), Token("c"), Token(","), Token(","), Token("ab"), Token("c"), Token(","), Token(",")]);
    StepsDone(DoubleComma.steps, s, 10, [Token("ab"), Token("c"), Token(","), Token(","), Token("ab"), Token("c"), Token(","), Token(",")]);
  }

  lemma BranchSepListTrailingStep6Part1(s: string)
    requires s == "abc,,abc,,!!!"
    ensures StepsF(TermRule(TestTerm).steps, s, 10, [Token("ab"), Token("c"), Token(","), Token(","), Token("ab"), Token("c"), Token(","), Token(",")] + [Error(8, 10, TrailingSeparatorMessage)]) == Outcome(true, 13, [Token("ab"), Token("c"), Token(","), Token(","), Token("ab"), Token("c"), Token(","), Token(","), Error(8, 10, TrailingSeparatorMessage), Token("!!!"), Position], NoValue)
  {
    StepsWhole(TermRule(TestTerm).steps, s, 10, [Token("ab"), Token("c"), Token(","), Token(","), Token("ab"), Token("c"), Token(","), Token(",")] + [Error(8, 10, TrailingSeparatorMessage)]);
    assert s[10..13] == "!!!";
    LitHit(TermRule(TestTerm).steps, 0, "!!!", s, 10, [Token("ab"), Token("c"), Token(","), Token(","), Token("ab"), Token("c"), Token(","), Token(",")] + [Error(8, 10, TrailingSeparatorMessage)], [Token("ab"), Token("c"), Token(","), Token(","), Token("ab"), Token("c"), Token(","), Token(","), Error(8, 10, TrailingSeparatorMessage), Token("!!!")]);
    PosStep(TermRule(TestTerm).steps, 1, s, 13, [Token("ab"), Token("c"), Token(","), Token(","), Token("ab"), Token("c"), Token(","), Token(","), Error(8, 10, TrailingSeparatorMessage), Token("!!!")], [Token("ab"), Token("c"), Token(","), Token(","), Token("ab"), Token("c"), Token(","), Token(","), Error(8, 10, TrailingSeparatorMessage), Token("!!!"), Position]);
    StepsDone(TermRule(TestTerm).steps, s, 13, [Token("ab"), Token("c"), Token(","), Token(","), Token("ab"), Token("c"), Token(","), Token(","), Error(8, 10, TrailingSeparatorMessage), Token("!!!"), Position]);
  }

  lemma BranchSepListTrailingVerdict()
    ensures Verify(Outcome(true, 13, [Token("ab"), Token("c"), Token(","), Token(","), Token("ab"), Token("c"), Token(","), Token(","), Error(8, 10, TrailingSeparatorMessage), Token("!!!"), Position], Count(2))) == TestResult(RecoveredError, Count(2), [Token("ab"), Token("c"), Token(","), Token(","), Token("ab"), Token("c"), Token(","), Token(","), Error(8, 10, TrailingSeparatorMessage), Token("!!!"), Position])
  {
    VerifyRecovered(Outcome(true, 13, [Token("ab"), Token("c"), Token(","), Token(","), Token("ab"), Token("c"), Token(","), Token(","), Error(8, 10, TrailingSeparatorMessage), Token("!!!"), Position], Count(2)), 8);
  }

  /** `.list(branch, sep)` on "abcabc!!!": a missing separator before an item is reported and the item parsed. */
  lemma BranchSepListNoSep()
    ensures Verify(ListF(BranchSepList, "abcabc!!!", 0, [])) == TestResult(RecoveredError, Count(2), [Token("ab"), Token("c"), ExpectedLiteral(3, ",", 0), Token("ab"), Token("c"), Token("!!!"), Position])
  {
    BranchSepListNoSepStep0();
    BranchSepListNoSepVerdict();
  }

  lemma BranchSepListNoSepStep0()
    ensures ListF(BranchSepList, "abcabc!!!", 0, []) == Outcome(true, 9, [Token("ab"), Token("c"), ExpectedLiteral(3, ",", 0), Token("ab"), Token("c"), Token("!!!"), Position], Count(2))
  {
    var s := "abcabc!!!";
    BranchSepListNoSepStep1();
  }

  lemma BranchSepListNoSepStep1()
    ensures Resume(BranchSepList, "abcabc!!!", AtItem, 0, 0, []) == Outcome(true, 9, [Token("ab"), Token("c"), ExpectedLiteral(3, ",", 0), Token("ab"), Token("c"), Token("!!!"), Position], Count(2))
  {
    var s := "abcabc!!!";
    assert s[0..2] == "ab";
    Hit("ab", s, 0);
    BranchSepListNoSepStep1Part0(s);
    BranchSepListNoSepStep2();
  }

  lemma BranchSepListNoSepStep1Part0(s: string)
    requires s == "abcabc!!!"
    ensures StepsF(BranchItem.steps, s, 0, []) == Outcome(true, 3, [Token("ab"), Token("c")], NoValue)
  {
    StepsWhole(BranchItem.steps, s, 0, []);
    assert s[0..2] == "ab";
    LitHit(BranchItem.steps, 0, "ab", s, 0, [], [Token("ab")]);
    assert s[2..3] == "c";
    LitHit(BranchItem.steps, 1, "c", s, 2, [Token("ab")], [Token("ab"), Token("c")]);
    StepsDone(BranchItem.steps, s, 3, [Token("ab"), Token("c")]);
  }

  lemma BranchSepListNoSepStep2()
    ensures Resume(BranchSepList, "abcabc!!!", AtTerminator, 3, 1, [Token("ab"), Token("c")]) == Outcome(true, 9, [Token("ab"), Token("c"), ExpectedLiteral(3, ",", 0), Token("ab"), Token("c"), Token("!!!"), Position], Count(2))
  {
    var s := "abcabc!!!";
    assert s[3..3] == "";
    assert "!!!"[..0] == "";
    Miss("!!!", s, 3, 0, "");
    BranchSepListNoSepStep3();
  }

  lemma BranchSepListNoSepStep3()
    ensures Resume(BranchSepList, "abcabc!!!", AtSeparator, 3, 1, [Token("ab"), Token("c")]) == Outcome(true, 9, [Token("ab"), Token("c"), ExpectedLiteral(3, ",", 0), Token("ab"), Token("c"), Token("!!!"), Position], Count(2))
  {
    var s := "abcabc!!!";
    BranchSepListNoSepStep3Part0(s);
    assert s[3..5] == "ab";
    Hit("ab", s, 3);
    BranchSepListNoSepStep3Part1(s);
    SepMissItem(BranchSepList, s, 3, 1, [Token("ab"), Token("c")], Outcome(false, 3, [Token("ab"), Token("c"), ExpectedLiteral(3, ",", 0)], NoValue), Outcome(true, 6, [Token("ab"), Token("c"), ExpectedLiteral(3, ",", 0), Token("ab"), Token("c")], NoValue));
    BranchSepListNoSepStep4();
  }

  lemma BranchSepListNoSepStep3Part0(s: string)
    requires s == "abcabc!!!"
    ensures StepsF(DoubleComma.steps, s, 3, [Token("ab"), Token("c")]) == Outcome(false, 3, [Token("ab"), Token("c"), ExpectedLiteral(3, ",", 0)], NoValue)
  {
    StepsWhole(DoubleComma.steps, s, 3, [Token("ab"), Token("c")]);
    assert s[3..3] == "";
    assert ","[..0] == "";
    LitMiss(DoubleComma.steps, 0, ",", s, 3, 0, "", [Token("ab"), Token("c")], [Token("ab"), Token("c"), ExpectedLiteral(3, ",", 0)]);
  }

  lemma BranchSepListNoSepStep3Part1(s: string)
    requires s == "abcabc!!!"
    ensures StepsF(BranchItem.steps, s, 3, [Token("ab"), Token("c"), ExpectedLiteral(3, ",", 0)]) == Outcome(true, 6, [Token("ab"), Token("c"), ExpectedLiteral(3, ",", 0), Token("ab"), Token("c")], NoValue)
  {
    StepsWhole(BranchItem.steps, s, 3, [Token("ab"), Token("c"), ExpectedLiteral(3, ",", 0)]);
    assert s[3..5] == "ab";
    LitHit(BranchItem.steps, 0, "ab", s, 3, [Token("ab"), Token("c"), ExpectedLiteral(3, ",", 0)], [Token("ab"), Token("c"), ExpectedLiteral(3, ",", 0), Token("ab")]);
    assert s[5..6] == "c";
    LitHit(BranchItem.steps, 1, "c", s, 5, [Token("ab"), Token("c"), ExpectedLiteral(3, ",", 0), Token("ab")], [Token("ab"), Token("c"), ExpectedLiteral(3, ",", 0), Token("ab"), Token("c")]);
    StepsDone(BranchItem.steps, s, 6, [Token("ab"), Token("c"), ExpectedLiteral(3, ",", 0), Token("ab"), Token("c")]);
  }

  lemma BranchSepListNoSepStep4()
    ensures Resume(BranchSepList, "abcabc!!!", AtTerminator, 6, 2, [Token("ab"), Token("c"), ExpectedLiteral(3, ",", 0), Token("ab"), Token("c")]) == Outcome(true, 9, [Token("ab"), Token("c"), ExpectedLiteral(3, ",", 0), Token("ab"), Token("c"), Token("!!!"), Position], Count(2))
  {
    var s := "abcabc!!!";
    assert s[6..9] == "!!!";
    Hit("!!!", s, 6);
    BranchSepListNoSepStep4Part0(s);
  }

  lemma BranchSepListNoSepStep4Part0(s: string)
    requires s == "abcabc!!!"
    ensures StepsF(TermRule(TestTerm).steps, s, 6, [Token("ab"), Token("c"), ExpectedLiteral(3, ",", 0), Token("ab"), Token("c")]) == Outcome(true, 9, [Token("ab"), Token("c"), ExpectedLiteral(3, ",", 0), Token("ab"), Token("c"), Token("!!!"), Position], NoValue)
  {
    StepsWhole(TermRule(TestTerm).steps, s, 6, [Token("ab"), Token("c"), ExpectedLiteral(3, ",", 0), Token("ab"), Token("c")]);
    assert s[6..9] == "!!!";
    LitHit(TermRule(TestTerm).steps, 0, "!!!", s, 6, [Token("ab"), Token("c"), ExpectedLiteral(3, ",", 0), Token("ab"), Token("c")], [Token("ab"), Token("c"), ExpectedLiteral(3, ",", 0), Token("ab"), Token("c"), Token("!!!")]);
    PosStep(TermRule(TestTerm).steps, 1, s, 9, [Token("ab"), Token("c"), ExpectedLiteral(3, ",", 0), Token("ab"), Token("c"), Token("!!!")], [Token("ab"), Token("c"), ExpectedLiteral(3, ",", 0), Token("ab"), Token("c"), Token("!!!"), Position]);
    StepsDone(TermRule(TestTerm).steps, s, 9, [Token("ab"), Token("c"), ExpectedLiteral(3, ",", 0), Token("ab"), Token("c"), Token("!!!"), Position]);
  }

  lemma BranchSepListNoSepVerdict()
    ensures Verify(Outcome(true, 9, [Token("ab"), Token("c"), ExpectedLiteral(3, ",", 0), Token("ab"), Token("c"), Token("!!!"), Position], Count(2))) == TestResult(RecoveredError, Count(2), [Token("ab"), Token("c"), ExpectedLiteral(3, ",", 0), Token("ab"), Token("c"), Token("!!!"), Position])
  {
    VerifyRecovered(Outcome(true, 9, [Token("ab"), Token("c"), ExpectedLiteral(3, ",", 0), Token("ab"), Token("c"), Token("!!!"), Position], Count(2)), 2);
  }

  /** `.list(branch, sep)` on "abcd!!!". */
  lemma BranchSepListNoSepNoItem()
    ensures Verify(ListF(BranchSepList, "abcd!!!", 0, [])) == TestResult(RecoveredError, Count(1), [Token("ab"), Token("c"), ExpectedLiteral(3, ",", 0), Recovery, ErrorToken("d"), Finish, Token("!!!"), Position])
  {
    BranchSepListNoSepNoItemStep0();
    BranchSepListNoSepNoItemVerdict();
  }

  lemma BranchSepListNoSepNoItemStep0()
    ensures ListF(BranchSepList, "abcd!!!", 0, []) == Outcome(true, 7, [Token("ab"), Token("c"), ExpectedLiteral(3, ",", 0), Recovery, ErrorToken("d"), Finish, Token("!!!"), Position], Count(1))
  {
    var s := "abcd!!!";
    BranchSepListNoSepNoItemStep1();
  }

  lemma BranchSepListNoSepNoItemStep1()
    ensures Resume(BranchSepList, "abcd!!!", AtItem, 0, 0, []) == Outcome(true, 7, [Token("ab"), Token("c"), ExpectedLiteral(3, ",", 0), Recovery, ErrorToken("d"), Finish, Token("!!!"), Position], Count(1))
  {
    var s := "abcd!!!";
    assert s[0..2] == "ab";
    Hit("ab", s, 0);
    BranchSepListNoSepNoItemStep1Part0(s);
    BranchSepListNoSepNoItemStep2();
  }

  lemma BranchSepListNoSepNoItemStep1Part0(s: string)
    requires s == "abcd!!!"
    ensures StepsF(BranchItem.steps, s, 0, []) == Outcome(true, 3, [Token("ab"), Token("c")], NoValue)
  {
    StepsWhole(BranchItem.steps, s, 0, []);
    assert s[0..2] == "ab";
    LitHit(BranchItem.steps, 0, "ab", s, 0, [], [Token("ab")]);
    assert s[2..3] == "c";
    LitHit(BranchItem.steps, 1, "c", s, 2, [Token("ab")], [Token("ab"), Token("c")]);
    StepsDone(BranchItem.steps, s, 3, [Token("ab"), Token("c")]);
  }

  lemma BranchSepListNoSepNoItemStep2()
    ensures Resume(BranchSepList, "abcd!!!", AtTerminator, 3, 1, [Token("ab"), Token("c")]) == Outcome(true, 7, [Token("ab"), Token("c"), ExpectedLiteral(3, ",", 0), Recovery, ErrorToken("d"), Finish, Token("!!!"), Position], Count(1))
  {
    var s := "abcd!!!";
    assert s[3..3] == "";
    assert "!!!"[..0] == "";
    Miss("!!!", s, 3, 0, "");
    BranchSepListNoSepNoItemStep3();
  }

  lemma BranchSepListNoSepNoItemStep3()
    ensures Resume(BranchSepList, "abcd!!!", AtSeparator, 3, 1, [Token("ab"), Token("c")]) == Outcome(true, 7, [Token("ab"), Token("c"), ExpectedLiteral(3, ",", 0), Recovery, ErrorToken("d"), Finish, Token("!!!"), Position], Count(1))
  {
    var s := "abcd!!!";
    BranchSepListNoSepNoItemStep3Part0(s);
    assert s[3..3] == "";
    assert "ab"[..0] == "";
    Miss("ab", s, 3, 0, "");
    BranchSepListNoSepNoItemStep4();
  }

  lemma BranchSepListNoSepNoItemStep3Part0(s: string)
    requires s == "abcd!!!"
    ensures StepsF(DoubleComma.steps, s, 3, [Token("ab"), Token("c")]) == Outcome(false, 3, [Token("ab"), Token("c"), ExpectedLiteral(3, ",", 0)], NoValue)
  {
    StepsWhole(DoubleComma.steps, s, 3, [Token("ab"), Token("c")]);
    assert s[3..3] == "";
    assert ","[..0] == "";
    LitMiss(DoubleComma.steps, 0, ",", s, 3, 0, "", [Token("ab"), Token("c")], [Token("ab"), Token("c"), ExpectedLiteral(3, ",", 0)]);
  }

  lemma BranchSepListNoSepNoItemStep4()
    ensures Resume(BranchSepList, "abcd!!!", AtRecovery, 3, 1, [Token("ab"), Token("c"), ExpectedLiteral(3, ",", 0)]) == Outcome(true, 7, [Token("ab"), Token("c"), ExpectedLiteral(3, ",", 0), Recovery, ErrorToken("d"), Finish, Token("!!!"), Position], Count(1))
  {
    var s := "abcd!!!";
    assert ListStops(BranchSepList) == ["!!!", ","];
    assert s[3..3] == "";
    assert "!!!"[..0] == "";
    Miss("!!!", s, 3, 0, "");
    assert s[3..3] == "";
    assert ","[..0] == "";
    Miss(",", s, 3, 0, "");
    Any2("!!!", ",", s, 3);
    assert s[3..3] == "";
    assert ";"[..0] == "";
    Miss(";", s, 3, 0, "");
    Any1(";", s, 3);
    ResyncNext(ListStops(BranchSepList), BranchSepList.term.limits, s, 3);
    assert s[4..7] == "!!!";
    Hit("!!!", s, 4);
    assert s[4..4] == "";
    assert ","[..0] == "";
    Miss(",", s, 4, 0, "");
    Any2("!!!", ",", s, 4);
    assert s[4..4] == "";
    assert ";"[..0] == "";
    Miss(";", s, 4, 0, "");
    Any1(";", s, 4);
    ResyncHere(ListStops(BranchSepList), BranchSepList.term.limits, s, 4);
    BranchSepListNoSepNoItemStep4Part0(s);
    BranchSepListNoSepNoItemStep4Part1(s);
  }

  lemma BranchSepListNoSepNoItemStep4Part0(s: string)
    requires s == "abcd!!!"
    ensures Skip(s, 3, 4, [Token("ab"), Token("c"), ExpectedLiteral(3, ",", 0)] + [Recovery]) == [Token("ab"), Token("c"), ExpectedLiteral(3, ",", 0), Recovery, ErrorToken("d")]
  {
    SkipStep(s, 3, 4, [Token("ab"), Token("c"), ExpectedLiteral(3, ",", 0)] + [Recovery], [Token("ab"), Token("c"), ExpectedLiteral(3, ",", 0), Recovery, ErrorToken("d")]);
    SkipDone(s, 4, [Token("ab"), Token("c"), ExpectedLiteral(3, ",", 0), Recovery, ErrorToken("d")]);
  }

  lemma BranchSepListNoSepNoItemStep4Part1(s: string)
    requires s == "abcd!!!"
    ensures StepsF(TermRule(TestTerm).steps, s, 4, [Token("ab"), Token("c"), ExpectedLiteral(3, ",", 0), Recovery, ErrorToken("d")] + [Finish]) == Outcome(true, 7, [Token("ab"), Token("c"), ExpectedLiteral(3, ",", 0), Recovery, ErrorToken("d"), Finish, Token("!!!"), Position], NoValue)
  {
    StepsWhole(TermRule(TestTerm).steps, s, 4, [Token("ab"), Token("c"), ExpectedLiteral(3, ",", 0), Recovery, ErrorToken("d")] + [Finish]);
    assert s[4..7] == "!!!";
    LitHit(TermRule(TestTerm).steps, 0, "!!!", s, 4, [Token("ab"), Token("c"), ExpectedLiteral(3, ",", 0), Recovery, ErrorToken("d")] + [Finish], [Token("ab"), Token("c"), ExpectedLiteral(3, ",", 0), Recovery, ErrorToken("d"), Finish, Token("!!!")]);
    PosStep(TermRule(TestTerm).steps, 1, s, 7, [Token("ab"), Token("c"), ExpectedLiteral(3, ",", 0), Recovery, ErrorToken("d"), Finish, Token("!!!")], [Token("ab"), Token("c"), ExpectedLiteral(3, ",", 0), Recovery, ErrorToken("d"), Finish, Token("!!!"), Position]);
    StepsDone(TermRule(TestTerm).steps, s, 7, [Token("ab"), Token("c"), ExpectedLiteral(3, ",", 0), Recovery, ErrorToken("d"), Finish, Token("!!!"), Position]);
  }

  lemma BranchSepListNoSepNoItemVerdict()
    ensures Verify(Outcome(true, 7, [Token("ab"), Token("c"), ExpectedLiteral(3, ",", 0), Recovery, ErrorToken("d"), Finish, Token("!!!"), Position], Count(1))) == TestResult(RecoveredError, Count(1), [Token("ab"), Token("c"), ExpectedLiteral(3, ",", 0), Recovery, ErrorToken("d"), Finish, Token("!!!"), Position])
  {
    VerifyRecovered(Outcome(true, 7, [Token("ab"), Token("c"), ExpectedLiteral(3, ",", 0), Recovery, ErrorToken("d"), Finish, Token("!!!"), Position], Count(1)), 2);
  }

  /** `.list(branch, sep)` on "abcab!!!". */
  lemma BranchSepListNoSepPartialItem()
    ensures Verify(ListF(BranchSepList, "abcab!!!", 0, [])) == TestResult(RecoveredError, Count(1), [Token("ab"), Token("c"), ExpectedLiteral(3, ",", 0), Token("ab"), ExpectedLiteral(5, "c", 0), Recovery, Finish, Token("!!!"), Position])
  {
    BranchSepListNoSepPartialItemStep0();
    BranchSepListNoSepPartialItemVerdict();
  }

  lemma BranchSepListNoSepPartialItemStep0()
    ensures ListF(BranchSepList, "abcab!!!", 0, []) == Outcome(true, 8, [Token("ab"), Token("c"), ExpectedLiteral(3, ",", 0), Token("ab"), ExpectedLiteral(5, "c", 0), Recovery, Finish, Token("!!!"), Position], Count(1))
  {
    var s := "abcab!!!";
    BranchSepListNoSepPartialItemStep1();
  }

  lemma BranchSepListNoSepPartialItemStep1()
    ensures Resume(BranchSepList, "abcab!!!", AtItem, 0, 0, []) == Outcome(true, 8, [Token("ab"), Token("c"), ExpectedLiteral(3, ",", 0), Token("ab"), ExpectedLiteral(5, "c", 0), Recovery, Finish, Token("!!!"), Position], Count(1))
  {
    var s := "abcab!!!";
    assert s[0..2] == "ab";
    Hit("ab", s, 0);
    BranchSepListNoSepPartialItemStep1Part0(s);
    BranchSepListNoSepPartialItemStep2();
  }

  lemma BranchSepListNoSepPartialItemStep1Part0(s: string)
    requires s == "abcab!!!"
    ensures StepsF(BranchItem.steps, s, 0, []) == Outcome(true, 3, [Token("ab"), Token("c")], NoValue)
  {
    StepsWhole(BranchItem.steps, s, 0, []);
    assert s[0..2] == "ab";
    LitHit(BranchItem.steps, 0, "ab", s, 0, [], [Token("ab")]);
    assert s[2..3] == "c";
    LitHit(BranchItem.steps, 1, "c", s, 2, [Token("ab")], [Token("ab"), Token("c")]);
    StepsDone(BranchItem.steps, s, 3, [Token("ab"), Token("c")]);
  }

  lemma BranchSepListNoSepPartialItemStep2()
    ensures Resume(BranchSepList, "abcab!!!", AtTerminator, 3, 1, [Token("ab"), Token("c")]) == Outcome(true, 8, [Token("ab"), Token("c"), ExpectedLiteral(3, ",", 0), Token("ab"), ExpectedLiteral(5, "c", 0), Recovery, Finish, Token("!!!"), Position], Count(1))
  {
    var s := "abcab!!!";
    assert s[3..3] == "";
    assert "!!!"[..0] == "";
    Miss("!!!", s, 3, 0, "");
    BranchSepListNoSepPartialItemStep3();
  }

  lemma BranchSepListNoSepPartialItemStep3()
    ensures Resume(BranchSepList, "abcab!!!", AtSeparator, 3, 1, [Token("ab"), Token("c")]) == Outcome(true, 8, [Token("ab"), Token("c"), ExpectedLiteral(3, ",", 0), Token("ab"), ExpectedLiteral(5, "c", 0), Recovery, Finish, Token("!!!"), Position], Count(1))
  {
    var s := "abcab!!!";
    BranchSepListNoSepPartialItemStep3Part0(s);
    assert s[3..5] == "ab";
    Hit("ab", s, 3);
    BranchSepListNoSepPartialItemStep3Part1(s);
    SepMissItem(BranchSepList, s, 3, 1, [Token("ab"), Token("c")], Outcome(false, 3, [Token("ab"), Token("c"), ExpectedLiteral(3, ",", 0)], NoValue), Outcome(false, 5, [Token("ab"), Token("c"), ExpectedLiteral(3, ",", 0), Token("ab"), ExpectedLiteral(5, "c", 0)], NoValue));
    BranchSepListNoSepPartialItemStep4();
  }

  lemma BranchSepListNoSepPartialItemStep3Part0(s: string)
    requires s == "abcab!!!"
    ensures StepsF(DoubleComma.steps, s, 3, [Token("ab"), Token("c")]) == Outcome(false, 3, [Token("ab"), Token("c"), ExpectedLiteral(3, ",", 0)], NoValue)
  {
    StepsWhole(DoubleComma.steps, s, 3, [Token("ab"), Token("c")]);
    assert s[3..3] == "";
    assert ","[..0] == "";
    LitMiss(DoubleComma.steps, 0, ",", s, 3, 0, "", [Token("ab"), Token("c")], [Token("ab"), Token("c"), ExpectedLiteral(3, ",", 0)]);
  }

  lemma BranchSepListNoSepPartialItemStep3Part1(s: string)
    requires s == "abcab!!!"
    ensures StepsF(BranchItem.steps, s, 3, [Token("ab"), Token("c"), ExpectedLiteral(3, ",", 0)]) == Outcome(false, 5, [Token("ab"), Token("c"), ExpectedLiteral(3, ",", 0), Token("ab"), ExpectedLiteral(5, "c", 0)], NoValue)
  {
    StepsWhole(BranchItem.steps, s, 3, [Token("ab"), Token("c"), ExpectedLiteral(3, ",", 0)]);
    assert s[3..5] == "ab";
    LitHit(BranchItem.steps, 0, "ab", s, 3, [Token("ab"), Token("c"), ExpectedLiteral(3, ",", 0)], [Token("ab"), Token("c"), ExpectedLiteral(3, ",", 0), Token("ab")]);
    assert s[5..5] == "";
    assert "c"[..0] == "";
    LitMiss(BranchItem.steps, 1, "c", s, 5, 0, "", [Token("ab"), Token("c"), ExpectedLiteral(3, ",", 0), Token("ab")], [Token("ab"), Token("c"), ExpectedLiteral(3, ",", 0), Token("ab"), ExpectedLiteral(5, "c", 0)]);
  }

  lemma BranchSepListNoSepPartialItemStep4()
    ensures Resume(BranchSepList, "abcab!!!", AtRecovery, 5, 1, [Token("ab"), Token("c"), ExpectedLiteral(3, ",", 0), Token("ab"), ExpectedLiteral(5, "c", 0)]) == Outcome(true, 8, [Token("ab"), Token("c"), ExpectedLiteral(3, ",", 0), Token("ab"), ExpectedLiteral(5, "c", 0), Recovery, Finish, Token("!!!"), Position], Count(1))
  {
    var s := "abcab!!!";
    assert ListStops(BranchSepList) == ["!!!", ","];
    assert s[5..8] == "!!!";
    Hit("!!!", s, 5);
    assert s[5..5] == "";
    assert ","[..0] == "";
    Miss(",", s, 5, 0, "");
    Any2("!!!", ",", s, 5);
    assert s[5..5] == "";
    assert ";"[..0] == "";
    Miss(";", s, 5, 0, "");
    Any1(";", s, 5);
    ResyncHere(ListStops(BranchSepList), BranchSepList.term.limits, s, 5);
    BranchSepListNoSepPartialItemStep4Part0(s);
    BranchSepListNoSepPartialItemStep4Part1(s);
  }

  lemma BranchSepListNoSepPartialItemStep4Part0(s: string)
    requires s == "abcab!!!"
    ensures Skip(s, 5, 5, [Token("ab"), Token("c"), ExpectedLiteral(3, ",", 0), Token("ab"), ExpectedLiteral(5, "c", 0)] + [Recovery]) == [Token("ab"), Token("c"), ExpectedLiteral(3, ",", 0), Token("ab"), ExpectedLiteral(5, "c", 0), Recovery]
  {
    SkipDone(s, 5, [Token("ab"), Token("c"), ExpectedLiteral(3, ",", 0), Token("ab"), ExpectedLiteral(5, "c", 0)] + [Recovery]);
  }

  lemma BranchSepListNoSepPartialItemStep4Part1(s: string)
    requires s == "abcab!!!"
    ensures StepsF(TermRule(TestTerm).steps, s, 5, [Token("ab"), Token("c"), ExpectedLiteral(3, ",", 0), Token("ab"), ExpectedLiteral(5, "c", 0), Recovery] + [Finish]) == Outcome(true, 8, [Token("ab"), Token("c"), ExpectedLiteral(3, ",", 0), Token("ab"), ExpectedLiteral(5, "c", 0), Recovery, Finish, Token("!!!"), Position], NoValue)
  {
    StepsWhole(TermRule(TestTerm).steps, s, 5, [Token("ab"), Token("c"), ExpectedLiteral(3, ",", 0), Token("ab"), ExpectedLiteral(5, "c", 0), Recovery] + [Finish]);
    assert s[5..8] == "!!!";
    LitHit(TermRule(TestTerm).steps, 0, "!!!", s, 5, [Token("ab"), Token("c"), ExpectedLiteral(3, ",", 0), Token("ab"), ExpectedLiteral(5, "c", 0), Recovery] + [Finish], [Token("ab"), Token("c"), ExpectedLiteral(3, ",", 0), Token("ab"), ExpectedLiteral(5, "c", 0), Recovery, Finish, Token("!!!")]);
    PosStep(TermRule(TestTerm).steps, 1, s, 8, [Token("ab"), Token("c"), ExpectedLiteral(3, ",", 0), Token("ab"), ExpectedLiteral(5, "c", 0), Recovery, Finish, Token("!!!")], [Token("ab"), Token("c"), ExpectedLiteral(3, ",", 0), Token("ab"), ExpectedLiteral(5, "c", 0), Recovery, Finish, Token("!!!"), Position]);
    StepsDone(TermRule(TestTerm).steps, s, 8, [Token("ab"), Token("c"), ExpectedLiteral(3, ",", 0), Token("ab"), ExpectedLiteral(5, "c", 0), Recovery, Finish, Token("!!!"), Position]);
  }

  lemma BranchSepListNoSepPartialItemVerdict()
    ensures Verify(Outcome(true, 8, [Token("ab"), Token("c"), ExpectedLiteral(3, ",", 0), Token("ab"), ExpectedLiteral(5, "c", 0), Recovery, Finish, Token("!!!"), Position], Count(1))) == TestResult(RecoveredError, Count(1), [Token("ab"), Token("c"), ExpectedLiteral(3, ",", 0), Token("ab"), ExpectedLiteral(5, "c", 0), Recovery, Finish, Token("!!!"), Position])
  {
    VerifyRecovered(Outcome(true, 8, [Token("ab"), Token("c"), ExpectedLiteral(3, ",", 0), Token("ab"), ExpectedLiteral(5, "c", 0), Recovery, Finish, Token("!!!"), Position], Count(1)), 2);
  }

  /** `.list(branch, sep)` on "abc,abc!!!": with a separator, recovery does not stop at the item. */
  lemma BranchSepListPartialSep()
    ensures Verify(ListF(BranchSepList, "abc,abc!!!", 0, [])) == TestResult(RecoveredError, Count(1), [Token("ab"), Token("c"), Token(","), ExpectedLiteral(4, ",", 0), Recovery, ErrorToken("a"), ErrorToken("b"), ErrorToken("c"), Finish, Token("!!!"), Position])
  {
    BranchSepListPartialSepStep0();
    BranchSepListPartialSepVerdict();
  }

  lemma BranchSepListPartialSepStep0()
    ensures ListF(BranchSepList, "abc,abc!!!", 0, []) == Outcome(true, 10, [Token("ab"), Token("c"), Token(","), ExpectedLiteral(4, ",", 0), Recovery, ErrorToken("a"), ErrorToken("b"), ErrorToken("c"), Finish, Token("!!!"), Position], Count(1))
  {
    var s := "abc,abc!!!";
    BranchSepListPartialSepStep1();
  }

  lemma BranchSepListPartialSepStep1()
    ensures Resume(BranchSepList, "abc,abc!!!", AtItem, 0, 0, []) == Outcome(true, 10, [Token("ab"), Token("c"), Token(","), ExpectedLiteral(4, ",", 0), Recovery, ErrorToken("a"), ErrorToken("b"), ErrorToken("c"), Finish, Token("!!!"), Position], Count(1))
  {
    var s := "abc,abc!!!";
    assert s[0..2] == "ab";
    Hit("ab", s, 0);
    BranchSepListPartialSepStep1Part0(s);
    BranchSepListPartialSepStep2();
  }

  lemma BranchSepListPartialSepStep1Part0(s: string)
    requires s == "abc,abc!!!"
    ensures StepsF(BranchItem.steps, s, 0, []) == Outcome(true, 3, [Token("ab"), Token("c")], NoValue)
  {
    StepsWhole(BranchItem.steps, s, 0, []);
    assert s[0..2] == "ab";
    LitHit(BranchItem.steps, 0, "ab", s, 0, [], [Token("ab")]);
    assert s[2..3] == "c";
    LitHit(BranchItem.steps, 1, "c", s, 2, [Token("ab")], [Token("ab"), Token("c")]);
    StepsDone(BranchItem.steps, s, 3, [Token("ab"), Token("c")]);
  }

  lemma BranchSepListPartialSepStep2()
    ensures Resume(BranchSepList, "abc,abc!!!", AtTerminator, 3, 1, [Token("ab"), Token("c")]) == Outcome(true, 10, [Token("ab"), Token("c"), Token(","), ExpectedLiteral(4, ",", 0), Recovery, ErrorToken("a"), ErrorToken("b"), ErrorToken("c"), Finish, Token("!!!"), Position], Count(1))
  {
    var s := "abc,abc!!!";
    assert s[3..3] == "";
    assert "!!!"[..0] == "";
    Miss("!!!", s, 3, 0, "");
    BranchSepListPartialSepStep3();
  }

  lemma BranchSepListPartialSepStep3()
    ensures Resume(BranchSepList, "abc,abc!!!", AtSeparator, 3, 1, [Token("ab"), Token("c")]) == Outcome(true, 10, [Token("ab"), Token("c"), Token(","), ExpectedLiteral(4, ",", 0), Recovery, ErrorToken("a"), ErrorToken("b"), ErrorToken("c"), Finish, Token("!!!"), Position], Count(1))
  {
    var s := "abc,abc!!!";
    BranchSepListPartialSepStep3Part0(s);
    BranchSepListPartialSepStep4();
  }

  lemma BranchSepListPartialSepStep3Part0(s: string)
    requires s == "abc,abc!!!"
    ensures StepsF(DoubleComma.steps, s, 3, [Token("ab"), Token("c")]) == Outcome(false, 4, [Token("ab"), Token("c"), Token(","), ExpectedLiteral(4, ",", 0)], NoValue)
  {
    StepsWhole(DoubleComma.steps, s, 3, [Token("ab"), Token("c")]);
    assert s[3..4] == ",";
    LitHit(DoubleComma.steps, 0, ",", s, 3, [Token("ab"), Token("c")], [Token("ab"), Token("c"), Token(",")]);
    assert s[4..4] == "";
    assert ","[..0] == "";
    LitMiss(DoubleComma.steps, 1, ",", s, 4, 0, "", [Token("ab"), Token("c"), Token(",")], [Token("ab"), Token("c"), Token(","), ExpectedLiteral(4, ",", 0)]);
  }

  lemma BranchSepListPartialSepStep4()
    ensures Resume(BranchSepList, "abc,abc!!!", AtRecovery, 4, 1, [Token("ab"), Token("c"), Token(","), ExpectedLiteral(4, ",", 0)]) == Outcome(true, 10, [Token("ab"), Token("c"), Token(","), ExpectedLiteral(4, ",", 0), Recovery, ErrorToken("a"), ErrorToken("b"), ErrorToken("c"), Finish, Token("!!!"), Position], Count(1))
  {
    var s := "abc,abc!!!";
    assert ListStops(BranchSepList) == ["!!!", ","];
    assert s[4..4] == "";
    assert "!!!"[..0] == "";
    Miss("!!!", s, 4, 0, "");
    assert s[4..4] == "";
    assert ","[..0] == "";
    Miss(",", s, 4, 0, "");
    Any2("!!!", ",", s, 4);
    assert s[4..4] == "";
    assert ";"[..0] == "";
    Miss(";", s, 4, 0, "");
    Any1(";", s, 4);
    ResyncNext(ListStops(BranchSepList), BranchSepList.term.limits, s, 4);
    assert s[5..5] == "";
    assert "!!!"[..0] == "";
    Miss("!!!", s, 5, 0, "");
    assert s[5..5] == "";
    assert ","[..0] == "";
    Miss(",", s, 5, 0, "");
    Any2("!!!", ",", s, 5);
    assert s[5..5] == "";
    assert ";"[..0] == "";
    Miss(";", s, 5, 0, "");
    Any1(";", s, 5);
    ResyncNext(ListStops(BranchSepList), BranchSepList.term.limits, s, 5);
    assert s[6..6] == "";
    assert "!!!"[..0] == "";
    Miss("!!!", s, 6, 0, "");
    assert s[6..6] == "";
    assert ","[..0] == "";
    Miss(",", s, 6, 0, "");
    Any2("!!!", ",", s, 6);
    assert s[6..6] == "";
    assert ";"[..0] == "";
    Miss(";", s, 6, 0, "");
    Any1(";", s, 6);
    ResyncNext(ListStops(BranchSepList), BranchSepList.term.limits, s, 6);
    assert s[7..10] == "!!!";
    Hit("!!!", s, 7);
    assert s[7..7] == "";
    assert ","[..0] == "";
    Miss(",", s, 7, 0, "");
    Any2("!!!", ",", s, 7);
    assert s[7..7] == "";
    assert ";"[..0] == "";
    Miss(";", s, 7, 0, "");
    Any1(";", s, 7);
    ResyncHere(ListStops(BranchSepList), BranchSepList.term.limits, s, 7);
    BranchSepListPartialSepStep4Part0(s);
    BranchSepListPartialSepStep4Part1(s);
  }

  lemma BranchSepListPartialSepStep4Part0(s: string)
    requires s == "abc,abc!!!"
    ensures Skip(s, 4, 7, [Token("ab"), Token("c"), Token(","), ExpectedLiteral(4, ",", 0)] + [Recovery]) == [Token("ab"), Token("c"), Token(","), ExpectedLiteral(4, ",", 0), Recovery, ErrorToken("a"), ErrorToken("b"), ErrorToken("c")]
  {
    SkipStep(s, 4, 7, [Token("ab"), Token("c"), Token(","), ExpectedLiteral(4, ",", 0)] + [Recovery], [Token("ab"), Token("c"), Token(","), ExpectedLiteral(4, ",", 0), Recovery, ErrorToken("a")]);
    SkipStep(s, 5, 7, [Token("ab"), Token("c"), Token(","), ExpectedLiteral(4, ",", 0), Recovery, ErrorToken("a")], [Token("ab"), Token("c"), Token(","), ExpectedLiteral(4, ",", 0), Recovery, ErrorToken("a"), ErrorToken("b")]);
    SkipStep(s, 6, 7, [Token("ab"), Token("c"), Token(","), ExpectedLiteral(4, ",", 0), Recovery, ErrorToken("a"), ErrorToken("b")], [Token("ab"), Token("c"), Token(","), ExpectedLiteral(4, ",", 0), Recovery, ErrorToken("a"), ErrorToken("b"), ErrorToken("c")]);
    SkipDone(s, 7, [Token("ab"), Token("c"), Token(","), ExpectedLiteral(4, ",", 0), Recovery, ErrorToken("a"), ErrorToken("b"), ErrorToken("c")]);
  }

  lemma BranchSepListPartialSepStep4Part1(s: string)
    requires s == "abc,abc!!!"
    ensures StepsF(TermRule(TestTerm).steps, s, 7, [Token("ab"), Token("c"), Token(","), ExpectedLiteral(4, ",", 0), Recovery, ErrorToken("a"), ErrorToken("b"), ErrorToken("c")] + [Finish]) == Outcome(true, 10, [Token("ab"), Token("c"), Token(","), ExpectedLiteral(4, ",", 0), Recovery, ErrorToken("a"), ErrorToken("b"), ErrorToken("c"), Finish, Token("!!!"), Position], NoValue)
  {
    StepsWhole(TermRule(TestTerm).steps, s, 7, [Token("ab"), Token("c"), Token(","), ExpectedLiteral(4, ",", 0), Recovery, ErrorToken("a"), ErrorToken("b"), ErrorToken("c")] + [Finish]);
    assert s[7..10] == "!!!";
    LitHit(TermRule(TestTerm).steps, 0, "!!!", s, 7, [Token("ab"), Token("c"), Token(","), ExpectedLiteral(4, ",", 0), Recovery, ErrorToken("a"), ErrorToken("b"), ErrorToken("c")] + [Finish], [Token("ab"), Token("c"), Token(","), ExpectedLiteral(4, ",", 0), Recovery, ErrorToken("a"), ErrorToken("b"), ErrorToken("c"), Finish, Token("!!!")]);
    PosStep(TermRule(TestTerm).steps, 1, s, 10, [Token("ab"), Token("c"), Token(","), ExpectedLiteral(4, ",", 0), Recovery, ErrorToken("a"), ErrorToken("b"), ErrorToken("c"), Finish, Token("!!!")], [Token("ab"), Token("c"), Token(","), ExpectedLiteral(4, ",", 0), Recovery, ErrorToken("a"), ErrorToken("b"), ErrorToken("c"), Finish, Token("!!!"), Position]);
    StepsDone(TermRule(TestTerm).steps, s, 10, [Token("ab"), Token("c"), Token(","), ExpectedLiteral(4, ",", 0), Recovery, ErrorToken("a"), ErrorToken("b"), ErrorToken("c"), Finish, Token("!!!"), Position]);
  }

  lemma BranchSepListPartialSepVerdict()
    ensures Verify(Outcome(true, 10, [Token("ab"), Token("c"), Token(","), ExpectedLiteral(4, ",", 0), Recovery, ErrorToken("a"), ErrorToken("b"), ErrorToken("c"), Finish, Token("!!!"), Position], Count(1))) == TestResult(RecoveredError, Count(1), [Token("ab"), Token("c"), Token(","), ExpectedLiteral(4, ",", 0), Recovery, ErrorToken("a"), ErrorToken("b"), ErrorToken("c"), Finish, Token("!!!"), Position])
  {
    VerifyRecovered(Outcome(true, 10, [Token("ab"), Token("c"), Token(","), ExpectedLiteral(4, ",", 0), Recovery, ErrorToken("a"), ErrorToken("b"), ErrorToken("c"), Finish, Token("!!!"), Position], Count(1)), 3);
  }

  /** `.list(branch, sep)` on "abc,,a,,abc!!!": recovery stops at the separator and later items are counted. */
  lemma BranchSepListRecoverSep()
    ensures Verify(ListF(BranchSepList, "abc,,a,,abc!!!", 0, [])) == TestResult(RecoveredError, Count(2), [Token("ab"), Token("c"), Token(","), Token(","), ExpectedLiteral(5, "ab", 1), ErrorToken("a"), Recovery, Finish, Token(","), Token(","), Token("ab"), Token("c"), Token("!!!"), Position])
  {
    BranchSepListRecoverSepStep0();
    BranchSepListRecoverSepVerdict();
  }

  lemma BranchSepListRecoverSepStep0()
    ensures ListF(BranchSepList, "abc,,a,,abc!!!", 0, []) == Outcome(true, 14, [Token("ab"), Token("c"), Token(","), Token(","), ExpectedLiteral(5, "ab", 1), ErrorToken("a"), Recovery, Finish, Token(","), Token(","), Token("ab"), Token("c"), Token("!!!"), Position], Count(2))
  {
    var s := "abc,,a,,abc!!!";
    BranchSepListRecoverSepStep1();
  }

  lemma BranchSepListRecoverSepStep1()
    ensures Resume(BranchSepList, "abc,,a,,abc!!!", AtItem, 0, 0, []) == Outcome(true, 14, [Token("ab"), Token("c"), Token(","), Token(","), ExpectedLiteral(5, "ab", 1), ErrorToken("a"), Recovery, Finish, Token(","), Token(","), Token("ab"), Token("c"), Token("!!!"), Position], Count(2))
  {
    var s := "abc,,a,,abc!!!";
    assert s[0..2] == "ab";
    Hit("ab", s, 0);
    BranchSepListRecoverSepStep1Part0(s);
    BranchSepListRecoverSepStep2();
  }

  lemma BranchSepListRecoverSepStep1Part0(s: string)
    requires s == "abc,,a,,abc!!!"
    ensures StepsF(BranchItem.steps, s, 0, []) == Outcome(true, 3, [Token("ab"), Token("c")], NoValue)
  {
    StepsWhole(BranchItem.steps, s, 0, []);
    assert s[0..2] == "ab";
    LitHit(BranchItem.steps, 0, "ab", s, 0, [], [Token("ab")]);
    assert s[2..3] == "c";
    LitHit(BranchItem.steps, 1, "c", s, 2, [Token("ab")], [Token("ab"), Token("c")]);
    StepsDone(BranchItem.steps, s, 3, [Token("ab"), Token("c")]);
  }

  lemma BranchSepListRecoverSepStep2()
    ensures Resume(BranchSepList, "abc,,a,,abc!!!", AtTerminator, 3, 1, [Token("ab"), Token("c")]) == Outcome(true, 14, [Token("ab"), Token("c"), Token(","), Token(","), ExpectedLiteral(5, "ab", 1), ErrorToken("a"), Recovery, Finish, Token(","), Token(","), Token("ab"), Token("c"), Token("!!!"), Position], Count(2))
  {
    var s := "abc,,a,,abc!!!";
    assert s[3..3] == "";
    assert "!!!"[..0] == "";
    Miss("!!!", s, 3, 0, "");
    BranchSepListRecoverSepStep3();
  }

  lemma BranchSepListRecoverSepStep3()
    ensures Resume(BranchSepList, "abc,,a,,abc!!!", AtSeparator, 3, 1, [Token("ab"), Token("c")]) == Outcome(true, 14, [Token("ab"), Token("c"), Token(","), Token(","), ExpectedLiteral(5, "ab", 1), ErrorToken("a"), Recovery, Finish, Token(","), Token(","), Token("ab"), Token("c"), Token("!!!"), Position], Count(2))
  {
    var s := "abc,,a,,abc!!!";
    BranchSepListRecoverSepStep3Part0(s);
    assert s[5..5] == "";
    assert "!!!"[..0] == "";
    Miss("!!!", s, 5, 0, "");
    BranchSepListRecoverSepStep4();
  }

  lemma BranchSepListRecoverSepStep3Part0(s: string)
    requires s == "abc,,a,,abc!!!"
    ensures StepsF(DoubleComma.steps, s, 3, [Token("ab"), Token("c")]) == Outcome(true, 5, [Token("ab"), Token("c"), Token(","), Token(",")], NoValue)
  {
    StepsWhole(DoubleComma.steps, s, 3, [Token("ab"), Token("c")]);
    assert s[3..4] == ",";
    LitHit(DoubleComma.steps, 0, ",", s, 3, [Token("ab"), Token("c")], [Token("ab"), Token("c"), Token(",")]);
    assert s[4..5] == ",";
    LitHit(DoubleComma.steps, 1, ",", s, 4, [Token("ab"), Token("c"), Token(",")], [Token("ab"), Token("c"), Token(","), Token(",")]);
    StepsDone(DoubleComma.steps, s, 5, [Token("ab"), Token("c"), Token(","), Token(",")]);
  }

  lemma BranchSepListRecoverSepStep4()
    ensures Resume(BranchSepList, "abc,,a,,abc!!!", AtItem, 5, 1, [Token("ab"), Token("c"), Token(","), Token(",")]) == Outcome(true, 14, [Token("ab"), Token("c"), Token(","), Token(","), ExpectedLiteral(5, "ab", 1), ErrorToken("a"), Recovery, Finish, Token(","), Token(","), Token("ab"), Token("c"), Token("!!!"), Position], Count(2))
  {
    var s := "abc,,a,,abc!!!";
    assert s[5..6] == "a";
    assert "ab"[..1] == "a";
    Miss("ab", s, 5, 1, "a");
    BranchSepListRecoverSepStep4Part0(s);
    BranchSepListRecoverSepStep5();
  }

  lemma BranchSepListRecoverSepStep4Part0(s: string)
    requires s == "abc,,a,,abc!!!"
    ensures StepsF(BranchItem.steps, s, 5, [Token("ab"), Token("c"), Token(","), Token(",")]) == Outcome(false, 6, [Token("ab"), Token("c"), Token(","), Token(","), ExpectedLiteral(5, "ab", 1), ErrorToken("a")], NoValue)
  {
    StepsWhole(BranchItem.steps, s, 5, [Token("ab"), Token("c"), Token(","), Token(",")]);
    assert s[5..6] == "a";
    assert "ab"[..1] == "a";
    LitMiss(BranchItem.steps, 0, "ab", s, 5, 1, "a", [Token("ab"), Token("c"), Token(","), Token(",")], [Token("ab"), Token("c"), Token(","), Token(","), ExpectedLiteral(5, "ab", 1), ErrorToken("a")]);
  }

  lemma BranchSepListRecoverSepStep5()
    ensures Resume(BranchSepList, "abc,,a,,abc!!!", AtRecovery, 6, 1, [Token("ab"), Token("c"), Token(","), Token(","), ExpectedLiteral(5, "ab", 1), ErrorToken("a")]) == Outcome(true, 14, [Token("ab"), Token("c"), Token(","), Token(","), ExpectedLiteral(5, "ab", 1), ErrorToken("a"), Recovery, Finish, Token(","), Token(","), Token("ab"), Token("c"), Token("!!!"), Position], Count(2))
  {
    var s := "abc,,a,,abc!!!";
    assert ListStops(BranchSepList) == ["!!!", ","];
    assert s[6..6] == "";
    assert "!!!"[..0] == "";
    Miss("!!!", s, 6, 0, "");
    assert s[6..7] == ",";
    Hit(",", s, 6);
    Any2("!!!", ",", s, 6);
    assert s[6..6] == "";
    assert ";"[..0] == "";
    Miss(";", s, 6, 0, "");
    Any1(";", s, 6);
    ResyncHere(ListStops(BranchSepList), BranchSepList.term.limits, s, 6);
    BranchSepListRecoverSepStep5Part0(s);
    assert [Token("ab"), Token("c"), Token(","), Token(","), ExpectedLiteral(5, "ab", 1), ErrorToken("a"), Recovery] + [Finish] == [Token("ab"), Token("c"), Token(","), Token(","), ExpectedLiteral(5, "ab", 1), ErrorToken("a"), Recovery, Finish];
    BranchSepListRecoverSepStep6();
  }

  lemma BranchSepListRecoverSepStep5Part0(s: string)
    requires s == "abc,,a,,abc!!!"
    ensures Skip(s, 6, 6, [Token("ab"), Token("c"), Token(","), Token(","), ExpectedLiteral(5, "ab", 1), ErrorToken("a")] + [Recovery]) == [Token("ab"), Token("c"), Token(","), Token(","), ExpectedLiteral(5, "ab", 1), ErrorToken("a"), Recovery]
  {
    SkipDone(s, 6, [Token("ab"), Token("c"), Token(","), Token(","), ExpectedLiteral(5, "ab", 1), ErrorToken("a")] + [Recovery]);
  }

  lemma BranchSepListRecoverSepStep6()
    ensures Resume(BranchSepList, "abc,,a,,abc!!!", AtSeparator, 6, 1, [Token("ab"), Token("c"), Token(","), Token(","), ExpectedLiteral(5, "ab", 1), ErrorToken("a"), Recovery, Finish]) == Outcome(true, 14, [Token("ab"), Token("c"), Token(","), Token(","), ExpectedLiteral(5, "ab", 1), ErrorToken("a"), Recovery, Finish, Token(","), Token(","), Token("ab"), Token("c"), Token("!!!"), Position], Count(2))
  {
    var s := "abc,,a,,abc!!!";
    BranchSepListRecoverSepStep6Part0(s);
    assert s[8..8] == "";
    assert "!!!"[..0] == "";
    Miss("!!!", s, 8, 0, "");
    BranchSepListRecoverSepStep7();
  }

  lemma BranchSepListRecoverSepStep6Part0(s: string)
    requires s == "abc,,a,,abc!!!"
    ensures StepsF(DoubleComma.steps, s, 6, [Token("ab"), Token("c"), Token(","), Token(","), ExpectedLiteral(5, "ab", 1), ErrorToken("a"), Recovery, Finish]) == Outcome(true, 8, [Token("ab"), Token("c"), Token(","), Token(","), ExpectedLiteral(5, "ab", 1), ErrorToken("a"), Recovery, Finish, Token(","), Token(",")], NoValue)
  {
    StepsWhole(DoubleComma.steps, s, 6, [Token("ab"), Token("c"), Token(","), Token(","), ExpectedLiteral(5, "ab", 1), ErrorToken("a"), Recovery, Finish]);
    assert s[6..7] == ",";
    LitHit(DoubleComma.steps, 0, ",", s, 6, [Token("ab"), Token("c"), Token(","), Token(","), ExpectedLiteral(5, "ab", 1), ErrorToken("a"), Recovery, Finish], [Token("ab"), Token("c"), Token(","), Token(","), ExpectedLiteral(5, "ab", 1), ErrorToken("a"), Recovery, Finish, Token(",")]);
    assert s[7..8] == ",";
    LitHit(DoubleComma.steps, 1, ",", s, 7, [Token("ab"), Token("c"), Token(","), Token(","), ExpectedLiteral(5, "ab", 1), ErrorToken("a"), Recovery, Finish, Token(",")], [Token("ab"), Token("c"), Token(","), Token(","), ExpectedLiteral(5, "ab", 1), ErrorToken("a"), Recovery, Finish, Token(","), Token(",")]);
    StepsDone(DoubleComma.steps, s, 8, [Token("ab"), Token("c"), Token(","), Token(","), ExpectedLiteral(5, "ab", 1), ErrorToken("a"), Recovery, Finish, Token(","), Token(",")]);
  }

  lemma BranchSepListRecoverSepStep7()
    ensures Resume(BranchSepList, "abc,,a,,abc!!!", AtItem, 8, 1, [Token("ab"), Token("c"), Token(","), Token(","), ExpectedLiteral(5, "ab", 1), ErrorToken("a"), Recovery, Finish, Token(","), Token(",")]) == Outcome(true, 14, [Token("ab"), Token("c"), Token(","), Token(","), ExpectedLiteral(5, "ab", 1), ErrorToken("a"), Recovery, Finish, Token(","), Token(","), Token("ab"), Token("c"), Token("!!!"), Position], Count(2))
  {
    var s := "abc,,a,,abc!!!";
    assert s[8..10] == "ab";
    Hit("ab", s, 8);
    BranchSepListRecoverSepStep7Part0(s);
    BranchSepListRecoverSepStep8();
  }

  lemma BranchSepListRecoverSepStep7Part0(s: string)
    requires s == "abc,,a,,abc!!!"
    ensures StepsF(BranchItem.steps, s, 8, [Token("ab"), Token("c"), Token(","), Token(","), ExpectedLiteral(5, "ab", 1), ErrorToken("a"), Recovery, Finish, Token(","), Token(",")]) == Outcome(true, 11, [Token("ab"), Token("c"), Token(","), Token(","), ExpectedLiteral(5, "ab", 1), ErrorToken("a"), Recovery, Finish, Token(","), Token(","), Token("ab"), Token("c")], NoValue)
  {
    StepsWhole(BranchItem.steps, s, 8, [Token("ab"), Token("c"), Token(","), Token(","), ExpectedLiteral(5, "ab", 1), ErrorToken("a"), Recovery, Finish, Token(","), Token(",")]);
    assert s[8..10] == "ab";
    LitHit(BranchItem.steps, 0, "ab", s, 8, [Token("ab"), Token("c"), Token(","), Token(","), ExpectedLiteral(5, "ab", 1), ErrorToken("a"), Recovery, Finish, Token(","), Token(",")], [Token("ab"), Token("c"), Token(","), Token(","), ExpectedLiteral(5, "ab", 1), ErrorToken("a"), Recovery, Finish, Token(","), Token(","), Token("ab")]);
    assert s[10..11] == "c";
    LitHit(BranchItem.steps, 1, "c", s, 10, [Token("ab"), Token("c"), Token(","), Token(","), ExpectedLiteral(5, "ab", 1), ErrorToken("a"), Recovery, Finish, Token(","), Token(","), Token("ab")], [Token("ab"), Token("c"), Token(","), Token(","), ExpectedLiteral(5, "ab", 1), ErrorToken("a"), Recovery, Finish, Token(","), Token(","), Token("ab"), Token("c")]);
    StepsDone(BranchItem.steps, s, 11, [Token("ab"), Token("c"), Token(","), Token(","), ExpectedLiteral(5, "ab", 1), ErrorToken("a"), Recovery, Finish, Token(","), Token(","), Token("ab"), Token("c")]);
  }

  lemma BranchSepListRecoverSepStep8()
    ensures Resume(BranchSepList, "abc,,a,,abc!!!", AtTerminator, 11, 2, [Token("ab"), Token("c"), Token(","), Token(","), ExpectedLiteral(5, "ab", 1), ErrorToken("a"), Recovery, Finish, Token(","), Token(","), Token("ab"), Token("c")]) == Outcome(true, 14, [Token("ab"), Token("c"), Token(","), Token(","), ExpectedLiteral(5, "ab", 1), ErrorToken("a"), Recovery, Finish, Token(","), Token(","), Token("ab"), Token("c"), Token("!!!"), Position], Count(2))
  {
    var s := "abc,,a,,abc!!!";
    assert s[11..14] == "!!!";
    Hit("!!!", s, 11);
    BranchSepListRecoverSepStep8Part0(s);
  }

  lemma BranchSepListRecoverSepStep8Part0(s: string)
    requires s == "abc,,a,,abc!!!"
    ensures StepsF(TermRule(TestTerm).steps, s, 11, [Token("ab"), Token("c"), Token(","), Token(","), ExpectedLiteral(5, "ab", 1), ErrorToken("a"), Recovery, Finish, Token(","), Token(","), Token("ab"), Token("c")]) == Outcome(true, 14, [Token("ab"), Token("c"), Token(","), Token(","), ExpectedLiteral(5, "ab", 1), ErrorToken("a"), Recovery, Finish, Token(","), Token(","), Token("ab"), Token("c"), Token("!!!"), Position], NoValue)
  {
    StepsWhole(TermRule(TestTerm).steps, s, 11, [Token("ab"), Token("c"), Token(","), Token(","), ExpectedLiteral(5, "ab", 1), ErrorToken("a"), Recovery, Finish, Token(","), Token(","), Token("ab"), Token("c")]);
    assert s[11..14] == "!!!";
    LitHit(TermRule(TestTerm).steps, 0, "!!!", s, 11, [Token("ab"), Token("c"), Token(","), Token(","), ExpectedLiteral(5, "ab", 1), ErrorToken("a"), Recovery, Finish, Token(","), Token(","), Token("ab"), Token("c")], [Token("ab"), Token("c"), Token(","), Token(","), ExpectedLiteral(5, "ab", 1), ErrorToken("a"), Recovery, Finish, Token(","), Token(","), Token("ab"), Token("c"), Token("!!!")]);
    PosStep(TermRule(TestTerm).steps, 1, s, 14, [Token("ab"), Token("c"), Token(","), Token(","), ExpectedLiteral(5, "ab", 1), ErrorToken("a"), Recovery, Finish, Token(","), Token(","), Token("ab"), Token("c"), Token("!!!")], [Token("ab"), Token("c"), Token(","), Token(","), ExpectedLiteral(5, "ab", 1), ErrorToken("a"), Recovery, Finish, Token(","), Token(","), Token("ab"), Token("c"), Token("!!!"), Position]);
    StepsDone(TermRule(TestTerm).steps, s, 14, [Token("ab"), Token("c"), Token(","), Token(","), ExpectedLiteral(5, "ab", 1), ErrorToken("a"), Recovery, Finish, Token(","), Token(","), Token("ab"), Token("c"), Token("!!!"), Position]);
  }

  lemma BranchSepListRecoverSepVerdict()
    ensures Verify(Outcome(true, 14, [Token("ab"), Token("c"), Token(","), Token(","), ExpectedLiteral(5, "ab", 1), ErrorToken("a"), Recovery, Finish, Token(","), Token(","), Token("ab"), Token("c"), Token("!!!"), Position], Count(2))) == TestResult(RecoveredError, Count(2), [Token("ab"), Token("c"), Token(","), Token(","), ExpectedLiteral(5, "ab", 1), ErrorToken("a"), Recovery, Finish, Token(","), Token(","), Token("ab"), Token("c"), Token("!!!"), Position])
  {
    VerifyRecovered(Outcome(true, 14, [Token("ab"), Token("c"), Token(","), Token(","), ExpectedLiteral(5, "ab", 1), ErrorToken("a"), Recovery, Finish, Token(","), Token(","), Token("ab"), Token("c"), Token("!!!"), Position], Count(2)), 4);
  }

  /** `.list(branch, sep)` on "abc,,a,abc!!!": the second recovery cannot stop at the item. */
  lemma BranchSepListRecoverSepFailed()
    ensures Verify(ListF(BranchSepList, "abc,,a,abc!!!", 0, [])) == TestResult(RecoveredError, Count(1), [Token("ab"), Token("c"), Token(","), Token(","), ExpectedLiteral(5, "ab", 1), ErrorToken("a"), Recovery, Finish, Token(","), ExpectedLiteral(7, ",", 0), Recovery, ErrorToken("a"), ErrorToken("b"), ErrorToken("c"), Finish, Token("!!!"), Position])
  {
    BranchSepListRecoverSepFailedStep0();
    BranchSepListRecoverSepFailedVerdict();
  }

  lemma BranchSepListRecoverSepFailedStep0()
    ensures ListF(BranchSepList, "abc,,a,abc!!!", 0, []) == Outcome(true, 13, [Token("ab"), Token("c"), Token(","), Token(","), ExpectedLiteral(5, "ab", 1), ErrorToken("a"), Recovery, Finish, Token(","), ExpectedLiteral(7, ",", 0), Recovery, ErrorToken("a"), ErrorToken("b"), ErrorToken("c"), Finish, Token("!!!"), Position], Count(1))
  {
    var s := "abc,,a,abc!!!";
    BranchSepListRecoverSepFailedStep1();
  }

  lemma BranchSepListRecoverSepFailedStep1()
    ensures Resume(BranchSepList, "abc,,a,abc!!!", AtItem, 0, 0, []) == Outcome(true, 13, [Token("ab"), Token("c"), Token(","), Token(","), ExpectedLiteral(5, "ab", 1), ErrorToken("a"), Recovery, Finish, Token(","), ExpectedLiteral(7, ",", 0), Recovery, ErrorToken("a"), ErrorToken("b"), ErrorToken("c"), Finish, Token("!!!"), Position], Count(1))
  {
    var s := "abc,,a,abc!!!";
    assert s[0..2] == "ab";
    Hit("ab", s, 0);
    BranchSepListRecoverSepFailedStep1Part0(s);
    BranchSepListRecoverSepFailedStep2();
  }

  lemma BranchSepListRecoverSepFailedStep1Part0(s: string)
    requires s == "abc,,a,abc!!!"
    ensures StepsF(BranchItem.steps, s, 0, []) == Outcome(true, 3, [Token("ab"), Token("c")], NoValue)
  {
    StepsWhole(BranchItem.steps, s, 0, []);
    assert s[0..2] == "ab";
    LitHit(BranchItem.steps, 0, "ab", s, 0, [], [Token("ab")]);
    assert s[2..3] == "c";
    LitHit(BranchItem.steps, 1, "c", s, 2, [Token("ab")], [Token("ab"), Token("c")]);
    StepsDone(BranchItem.steps, s, 3, [Token("ab"), Token("c")]);
  }

  lemma BranchSepListRecoverSepFailedStep2()
    ensures Resume(BranchSepList, "abc,,a,abc!!!", AtTerminator, 3, 1, [Token("ab"), Token("c")]) == Outcome(true, 13, [Token("ab"), Token("c"), Token(","), Token(","), ExpectedLiteral(5, "ab", 1), ErrorToken("a"), Recovery, Finish, Token(","), ExpectedLiteral(7, ",", 0), Recovery, ErrorToken("a"), ErrorToken("b"), ErrorToken("c"), Finish, Token("!!!"), Position], Count(1))
  {
    var s := "abc,,a,abc!!!";
    assert s[3..3] == "";
    assert "!!!"[..0] == "";
    Miss("!!!", s, 3, 0, "");
    BranchSepListRecoverSepFailedStep3();
  }

  lemma BranchSepListRecoverSepFailedStep3()
    ensures Resume(BranchSepList, "abc,,a,abc!!!", AtSeparator, 3, 1, [Token("ab"), Token("c")]) == Outcome(true, 13, [Token("ab"), Token("c"), Token(","), Token(","), ExpectedLiteral(5, "ab", 1), ErrorToken("a"), Recovery, Finish, Token(","), ExpectedLiteral(7, ",", 0), Recovery, ErrorToken("a"), ErrorToken("b"), ErrorToken("c"), Finish, Token("!!!"), Position], Count(1))
  {
    var s := "abc,,a,abc!!!";
    BranchSepListRecoverSepFailedStep3Part0(s);
    assert s[5..5] == "";
    assert "!!!"[..0] == "";
    Miss("!!!", s, 5, 0, "");
    BranchSepListRecoverSepFailedStep4();
  }

  lemma BranchSepListRecoverSepFailedStep3Part0(s: string)
    requires s == "abc,,a,abc!!!"
    ensures StepsF(DoubleComma.steps, s, 3, [Token("ab"), Token("c")]) == Outcome(true, 5, [Token("ab"), Token("c"), Token(","), Token(",")], NoValue)
  {
    StepsWhole(DoubleComma.steps, s, 3, [Token("ab"), Token("c")]);
    assert s[3..4] == ",";
    LitHit(DoubleComma.steps, 0, ",", s, 3, [Token("ab"), Token("c")], [Token("ab"), Token("c"), Token(",")]);
    assert s[4..5] == ",";
    LitHit(DoubleComma.steps, 1, ",", s, 4, [Token("ab"), Token("c"), Token(",")], [Token("ab"), Token("c"), Token(","), Token(",")]);
    StepsDone(DoubleComma.steps, s, 5, [Token("ab"), Token("c"), Token(","), Token(",")]);
  }

  lemma BranchSepListRecoverSepFailedStep4()
    ensures Resume(BranchSepList, "abc,,a,abc!!!", AtItem, 5, 1, [Token("ab"), Token("c"), Token(","), Token(",")]) == Outcome(true, 13, [Token("ab"), Token("c"), Token(","), Token(","), ExpectedLiteral(5, "ab", 1), ErrorToken("a"), Recovery, Finish, Token(","), ExpectedLiteral(7, ",", 0), Recovery, ErrorToken("a"), ErrorToken("b"), ErrorToken("c"), Finish, Token("!!!"), Position], Count(1))
  {
    var s := "abc,,a,abc!!!";
    assert s[5..6] == "a";
    assert "ab"[..1] == "a";
    Miss("ab", s, 5, 1, "a");
    BranchSepListRecoverSepFailedStep4Part0(s);
    BranchSepListRecoverSepFailedStep5();
  }

  lemma BranchSepListRecoverSepFailedStep4Part0(s: string)
    requires s == "abc,,a,abc!!!"
    ensures StepsF(BranchItem.steps, s, 5, [Token("ab"), Token("c"), Token(","), Token(",")]) == Outcome(false, 6, [Token("ab"), Token("c"), Token(","), Token(","), ExpectedLiteral(5, "ab", 1), ErrorToken("a")], NoValue)
  {
    StepsWhole(BranchItem.steps, s, 5, [Token("ab"), Token("c"), Token(","), Token(",")]);
    assert s[5..6] == "a";
    assert "ab"[..1] == "a";
    LitMiss(BranchItem.steps, 0, "ab", s, 5, 1, "a", [Token("ab"), Token("c"), Token(","), Token(",")], [Token("ab"), Token("c"), Token(","), Token(","), ExpectedLiteral(5, "ab", 1), ErrorToken("a")]);
  }

  lemma BranchSepListRecoverSepFailedStep5()
    ensures Resume(BranchSepList, "abc,,a,abc!!!", AtRecovery, 6, 1, [Token("ab"), Token("c"), Token(","), Token(","), ExpectedLiteral(5, "ab", 1), ErrorToken("a")]) == Outcome(true, 13, [Token("ab"), Token("c"), Token(","), Token(","), ExpectedLiteral(5, "ab", 1), ErrorToken("a"), Recovery, Finish, Token(","), ExpectedLiteral(7, ",", 0), Recovery, ErrorToken("a"), ErrorToken("b"), ErrorToken("c"), Finish, Token("!!!"), Position], Count(1))
  {
    var s := "abc,,a,abc!!!";
    assert ListStops(BranchSepList) == ["!!!", ","];
    assert s[6..6] == "";
    assert "!!!"[..0] == "";
    Miss("!!!", s, 6, 0, "");
    assert s[6..7] == ",";
    Hit(",", s, 6);
    Any2("!!!", ",", s, 6);
    assert s[6..6] == "";
    assert ";"[..0] == "";
    Miss(";", s, 6, 0, "");
    Any1(";", s, 6);
    ResyncHere(ListStops(BranchSepList), BranchSepList.term.limits, s, 6);
    BranchSepListRecoverSepFailedStep5Part0(s);
    assert [Token("ab"), Token("c"), Token(","), Token(","), ExpectedLiteral(5, "ab", 1), ErrorToken("a"), Recovery] + [Finish] == [Token("ab"), Token("c"), Token(","), Token(","), ExpectedLiteral(5, "ab", 1), ErrorToken("a"), Recovery, Finish];
    BranchSepListRecoverSepFailedStep6();
  }

  lemma BranchSepListRecoverSepFailedStep5Part0(s: string)
    requires s == "abc,,a,abc!!!"
    ensures Skip(s, 6, 6, [Token("ab"), Token("c"), Token(","), Token(","), ExpectedLiteral(5, "ab", 1), ErrorToken("a")] + [Recovery]) == [Token("ab"), Token("c"), Token(","), Token(","), ExpectedLiteral(5, "ab", 1), ErrorToken("a"), Recovery]
  {
    SkipDone(s, 6, [Token("ab"), Token("c"), Token(","), Token(","), ExpectedLiteral(5, "ab", 1), ErrorToken("a")] + [Recovery]);
  }

  lemma BranchSepListRecoverSepFailedStep6()
    ensures Resume(BranchSepList, "abc,,a,abc!!!", AtSeparator, 6, 1, [Token("ab"), Token("c"), Token(","), Token(","), ExpectedLiteral(5, "ab", 1), ErrorToken("a"), Recovery, Finish]) == Outcome(true, 13, [Token("ab"), Token("c"), Token(","), Token(","), ExpectedLiteral(5, "ab", 1), ErrorToken("a"), Recovery, Finish, Token(","), ExpectedLiteral(7, ",", 0), Recovery, ErrorToken("a"), ErrorToken("b"), ErrorToken("c"), Finish, Token("!!!"), Position], Count(1))
  {
    var s := "abc,,a,abc!!!";
    BranchSepListRecoverSepFailedStep6Part0(s);
    BranchSepListRecoverSepFailedStep7();
  }

  lemma BranchSepListRecoverSepFailedStep6Part0(s: string)
    requires s == "abc,,a,abc!!!"
    ensures StepsF(DoubleComma.steps, s, 6, [Token("ab"), Token("c"), Token(","), Token(","), ExpectedLiteral(5, "ab", 1), ErrorToken("a"), Recovery, Finish]) == Outcome(false, 7, [Token("ab"), Token("c"), Token(","), Token(","), ExpectedLiteral(5, "ab", 1), ErrorToken("a"), Recovery, Finish, Token(","), ExpectedLiteral(7, ",", 0)], NoValue)
  {
    StepsWhole(DoubleComma.steps, s, 6, [Token("ab"), Token("c"), Token(","), Token(","), ExpectedLiteral(5, "ab", 1), ErrorToken("a"), Recovery, Finish]);
    assert s[6..7] == ",";
    LitHit(DoubleComma.steps, 0, ",", s, 6, [Token("ab"), Token("c"), Token(","), Token(","), ExpectedLiteral(5, "ab", 1), ErrorToken("a"), Recovery, Finish], [Token("ab"), Token("c"), Token(","), Token(","), ExpectedLiteral(5, "ab", 1), ErrorToken("a"), Recovery, Finish, Token(",")]);
    assert s[7..7] == "";
    assert ","[..0] == "";
    LitMiss(DoubleComma.steps, 1, ",", s, 7, 0, "", [Token("ab"), Token("c"), Token(","), Token(","), ExpectedLiteral(5, "ab", 1), ErrorToken("a"), Recovery, Finish, Token(",")], [Token("ab"), Token("c"), Token(","), Token(","), ExpectedLiteral(5, "ab", 1), ErrorToken("a"), Recovery, Finish, Token(","), ExpectedLiteral(7, ",", 0)]);
  }

  lemma BranchSepListRecoverSepFailedStep7()
    ensures Resume(BranchSepList, "abc,,a,abc!!!", AtRecovery, 7, 1, [Token("ab"), Token("c"), Token(","), Token(","), ExpectedLiteral(5, "ab", 1), ErrorToken("a"), Recovery, Finish, Token(","), ExpectedLiteral(7, ",", 0)]) == Outcome(true, 13, [Token("ab"), Token("c"), Token(","), Token(","), ExpectedLiteral(5, "ab", 1), ErrorToken("a"), Recovery, Finish, Token(","), ExpectedLiteral(7, ",", 0), Recovery, ErrorToken("a"), ErrorToken("b"), ErrorToken("c"), Finish, Token("!!!"), Position], Count(1))
  {
    var s := "abc,,a,abc!!!";
    assert ListStops(BranchSepList) == ["!!!", ","];
    assert s[7..7] == "";
    assert "!!!"[..0] == "";
    Miss("!!!", s, 7, 0, "");
    assert s[7..7] == "";
    assert ","[..0] == "";
    Miss(",", s, 7, 0, "");
    Any2("!!!", ",", s, 7);
    assert s[7..7] == "";
    assert ";"[..0] == "";
    Miss(";", s, 7, 0, "");
    Any1(";", s, 7);
    ResyncNext(ListStops(BranchSepList), BranchSepList.term.limits, s, 7);
    assert s[8..8] == "";
    assert "!!!"[..0] == "";
    Miss("!!!", s, 8, 0, "");
    assert s[8..8] == "";
    assert ","[..0] == "";
    Miss(",", s, 8, 0, "");
    Any2("!!!", ",", s, 8);
    assert s[8..8] == "";
    assert ";"[..0] == "";
    Miss(";", s, 8, 0, "");
    Any1(";", s, 8);
    ResyncNext(ListStops(BranchSepList), BranchSepList.term.limits, s, 8);
    assert s[9..9] == "";
    assert "!!!"[..0] == "";
    Miss("!!!", s, 9, 0, "");
    assert s[9..9] == "";
    assert ","[..0] == "";
    Miss(",", s, 9, 0, "");
    Any2("!!!", ",", s, 9);
    assert s[9..9] == "";
    assert ";"[..0] == "";
    Miss(";", s, 9, 0, "");
    Any1(";", s, 9);
    ResyncNext(ListStops(BranchSepList), BranchSepList.term.limits, s, 9);
    assert s[10..13] == "!!!";
    Hit("!!!", s, 10);
    assert s[10..10] == "";
    assert ","[..0] == "";
    Miss(",", s, 10, 0, "");
    Any2("!!!", ",", s, 10);
    assert s[10..10] == "";
    assert ";"[..0] == "";
    Miss(";", s, 10, 0, "");
    Any1(";", s, 10);
    ResyncHere(ListStops(BranchSepList), BranchSepList.term.limits, s, 10);
    BranchSepListRecoverSepFailedStep7Part0(s);
    BranchSepListRecoverSepFailedStep7Part1(s);
  }

  lemma BranchSepListRecoverSepFailedStep7Part0(s: string)
    requires s == "abc,,a,abc!!!"
    ensures Skip(s, 7, 10, [Token("ab"), Token("c"), Token(","), Token(","), ExpectedLiteral(5, "ab", 1), ErrorToken("a"), Recovery, Finish, Token(","), ExpectedLiteral(7, ",", 0)] + [Recovery]) == [Token("ab"), Token("c"), Token(","), Token(","), ExpectedLiteral(5, "ab", 1), ErrorToken("a"), Recovery, Finish, Token(","), ExpectedLiteral(7, ",", 0), Recovery, ErrorToken("a"), ErrorToken("b"), ErrorToken("c")]
  {
    SkipStep(s, 7, 10, [Token("ab"), Token("c"), Token(","), Token(","), ExpectedLiteral(5, "ab", 1), ErrorToken("a"), Recovery, Finish, Token(","), ExpectedLiteral(7, ",", 0)] + [Recovery], [Token("ab"), Token("c"), Token(","), Token(","), ExpectedLiteral(5, "ab", 1), ErrorToken("a"), Recovery, Finish, Token(","), ExpectedLiteral(7, ",", 0), Recovery, ErrorToken("a")]);
    SkipStep(s, 8, 10, [Token("ab"), Token("c"), Token(","), Token(","), ExpectedLiteral(5, "ab", 1), ErrorToken("a"), Recovery, Finish, Token(","), ExpectedLiteral(7, ",", 0), Recovery, ErrorToken("a")], [Token("ab"), Token("c"), Token(","), Token(","), ExpectedLiteral(5, "ab", 1), ErrorToken("a"), Recovery, Finish, Token(","), ExpectedLiteral(7, ",", 0), Recovery, ErrorToken("a"), ErrorToken("b")]);
    SkipStep(s, 9, 10, [Token("ab"), Token("c"), Token(","), Token(","), ExpectedLiteral(5, "ab", 1), ErrorToken("a"), Recovery, Finish, Token(","), ExpectedLiteral(7, ",", 0), Recovery, ErrorToken("a"), ErrorToken("b")], [Token("ab"), Token("c"), Token(","), Token(","), ExpectedLiteral(5, "ab", 1), ErrorToken("a"), Recovery, Finish, Token(","), ExpectedLiteral(7, ",", 0), Recovery, ErrorToken("a"), ErrorToken("b"), ErrorToken("c")]);
    SkipDone(s, 10, [Token("ab"), Token("c"), Token(","), Token(","), ExpectedLiteral(5, "ab", 1), ErrorToken("a"), Recovery, Finish, Token(","), ExpectedLiteral(7, ",", 0), Recovery, ErrorToken("a"), ErrorToken("b"), ErrorToken("c")]);
  }

  lemma BranchSepListRecoverSepFailedStep7Part1(s: string)
    requires s == "abc,,a,abc!!!"
    ensures StepsF(TermRule(TestTerm).steps, s, 10, [Token("ab"), Token("c"), Token(","), Token(","), ExpectedLiteral(5, "ab", 1), ErrorToken("a"), Recovery, Finish, Token(","), ExpectedLiteral(7, ",", 0), Recovery, ErrorToken("a"), ErrorToken("b"), ErrorToken("c")] + [Finish]) == Outcome(true, 13, [Token("ab"), Token("c"), Token(","), Token(","), ExpectedLiteral(5, "ab", 1), ErrorToken("a"), Recovery, Finish, Token(","), ExpectedLiteral(7, ",", 0), Recovery, ErrorToken("a"), ErrorToken("b"), ErrorToken("c"), Finish, Token("!!!"), Position], NoValue)
  {
    StepsWhole(TermRule(TestTerm).steps, s, 10, [Token("ab"), Token("c"), Token(","), Token(","), ExpectedLiteral(5, "ab", 1), ErrorToken("a"), Recovery, Finish, Token(","), ExpectedLiteral(7, ",", 0), Recovery, ErrorToken("a"), ErrorToken("b"), ErrorToken("c")] + [Finish]);
    assert s[10..13] == "!!!";
    LitHit(TermRule(TestTerm).steps, 0, "!!!", s, 10, [Token("ab"), Token("c"), Token(","), Token(","), ExpectedLiteral(5, "ab", 1), ErrorToken("a"), Recovery, Finish, Token(","), ExpectedLiteral(7, ",", 0), Recovery, ErrorToken("a"), ErrorToken("b"), ErrorToken("c")] + [Finish], [Token("ab"), Token("c"), Token(","), Token(","), ExpectedLiteral(5, "ab", 1), ErrorToken("a"), Recovery, Finish, Token(","), ExpectedLiteral(7, ",", 0), Recovery, ErrorToken("a"), ErrorToken("b"), ErrorToken("c"), Finish, Token("!!!")]);
    PosStep(TermRule(TestTerm).steps, 1, s, 13, [Token("ab"), Token("c"), Token(","), Token(","), ExpectedLiteral(5, "ab", 1), ErrorToken("a"), Recovery, Finish, Token(","), ExpectedLiteral(7, ",", 0), Recovery, ErrorToken("a"), ErrorToken("b"), ErrorToken("c"), Finish, Token("!!!")], [Token("ab"), Token("c"), Token(","), Token(","), ExpectedLiteral(5, "ab", 1), ErrorToken("a"), Recovery, Finish, Token(","), ExpectedLiteral(7, ",", 0), Recovery, ErrorToken("a"), ErrorToken("b"), ErrorToken("c"), Finish, Token("!!!"), Position]);
    StepsDone(TermRule(TestTerm).steps, s, 13, [Token("ab"), Token("c"), Token(","), Token(","), ExpectedLiteral(5, "ab", 1), ErrorToken("a"), Recovery, Finish, Token(","), ExpectedLiteral(7, ",", 0), Recovery, ErrorToken("a"), ErrorToken("b"), ErrorToken("c"), Finish, Token("!!!"), Position]);
  }

  lemma BranchSepListRecoverSepFailedVerdict()
    ensures Verify(Outcome(true, 13, [Token("ab"), Token("c"), Token(","), Token(","), ExpectedLiteral(5, "ab", 1), ErrorToken("a"), Recovery, Finish, Token(","), ExpectedLiteral(7, ",", 0), Recovery, ErrorToken("a"), ErrorToken("b"), ErrorToken("c"), Finish, Token("!!!"), Position], Count(1))) == TestResult(RecoveredError, Count(1), [Token("ab"), Token("c"), Token(","), Token(","), ExpectedLiteral(5, "ab", 1), ErrorToken("a"), Recovery, Finish, Token(","), ExpectedLiteral(7, ",", 0), Recovery, ErrorToken("a"), ErrorToken("b"), ErrorToken("c"), Finish, Token("!!!"), Position])
  {
    VerifyRecovered(Outcome(true, 13, [Token("ab"), Token("c"), Token(","), Token(","), ExpectedLiteral(5, "ab", 1), ErrorToken("a"), Recovery, Finish, Token(","), ExpectedLiteral(7, ",", 0), Recovery, ErrorToken("a"), ErrorToken("b"), ErrorToken("c"), Finish, Token("!!!"), Position], Count(1)), 4);
  }

  /** `.list(branch, sep)` on "abc,,abd!!!". */
  lemma BranchSepListRecoverTerminator()
    ensures Verify(ListF(BranchSepList, "abc,,abd!!!", 0, [])) == TestResult(RecoveredError, Count(1), [Token("ab"), Token("c"), Token(","), Token(","), Token("ab"), ExpectedLiteral(7, "c", 0), Recovery, ErrorToken("d"), Finish, Token("!!!"), Position])
  {
    BranchSepListRecoverTerminatorStep0();
    BranchSepListRecoverTerminatorVerdict();
  }

  lemma BranchSepListRecoverTerminatorStep0()
    ensures ListF(BranchSepList, "abc,,abd!!!", 0, []) == Outcome(true, 11, [Token("ab"), Token("c"), Token(","), Token(","), Token("ab"), ExpectedLiteral(7, "c", 0), Recovery, ErrorToken("d"), Finish, Token("!!!"), Position], Count(1))
  {
    var s := "abc,,abd!!!";
    BranchSepListRecoverTerminatorStep1();
  }

  lemma BranchSepListRecoverTerminatorStep1()
    ensures Resume(BranchSepList, "abc,,abd!!!", AtItem, 0, 0, []) == Outcome(true, 11, [Token("ab"), Token("c"), Token(","), Token(","), Token("ab"), ExpectedLiteral(7, "c", 0), Recovery, ErrorToken("d"), Finish, Token("!!!"), Position], Count(1))
  {
    var s := "abc,,abd!!!";
    assert s[0..2] == "ab";
    Hit("ab", s, 0);
    BranchSepListRecoverTerminatorStep1Part0(s);
    BranchSepListRecoverTerminatorStep2();
  }

  lemma BranchSepListRecoverTerminatorStep1Part0(s: string)
    requires s == "abc,,abd!!!"
    ensures StepsF(BranchItem.steps, s, 0, []) == Outcome(true, 3, [Token("ab"), Token("c")], NoValue)
  {
    StepsWhole(BranchItem.steps, s, 0, []);
    assert s[0..2] == "ab";
    LitHit(BranchItem.steps, 0, "ab", s, 0, [], [Token("ab")]);
    assert s[2..3] == "c";
    LitHit(BranchItem.steps, 1, "c", s, 2, [Token("ab")], [Token("ab"), Token("c")]);
    StepsDone(BranchItem.steps, s, 3, [Token("ab"), Token("c")]);
  }

  lemma BranchSepListRecoverTerminatorStep2()
    ensures Resume(BranchSepList, "abc,,abd!!!", AtTerminator, 3, 1, [Token("ab"), Token("c")]) == Outcome(true, 11, [Token("ab"), Token("c"), Token(","), Token(","), Token("ab"), ExpectedLiteral(7, "c", 0), Recovery, ErrorToken("d"), Finish, Token("!!!"), Position], Count(1))
  {
    var s := "abc,,abd!!!";
    assert s[3..3] == "";
    assert "!!!"[..0] == "";
    Miss("!!!", s, 3, 0, "");
    BranchSepListRecoverTerminatorStep3();
  }

  lemma BranchSepListRecoverTerminatorStep3()
    ensures Resume(BranchSepList, "abc,,abd!!!", AtSeparator, 3, 1, [Token("ab"), Token("c")]) == Outcome(true, 11, [Token("ab"), Token("c"), Token(","), Token(","), Token("ab"), ExpectedLiteral(7, "c", 0), Recovery, ErrorToken("d"), Finish, Token("!!!"), Position], Count(1))
  {
    var s := "abc,,abd!!!";
    BranchSepListRecoverTerminatorStep3Part0(s);
    assert s[5..5] == "";
    assert "!!!"[..0] == "";
    Miss("!!!", s, 5, 0, "");
    BranchSepListRecoverTerminatorStep4();
  }

  lemma BranchSepListRecoverTerminatorStep3Part0(s: string)
    requires s == "abc,,abd!!!"
    ensures StepsF(DoubleComma.steps, s, 3, [Token("ab"), Token("c")]) == Outcome(true, 5, [Token("ab"), Token("c"), Token(","), Token(",")], NoValue)
  {
    StepsWhole(DoubleComma.steps, s, 3, [Token("ab"), Token("c")]);
    assert s[3..4] == ",";
    LitHit(DoubleComma.steps, 0, ",", s, 3, [Token("ab"), Token("c")], [Token("ab"), Token("c"), Token(",")]);
    assert s[4..5] == ",";
    LitHit(DoubleComma.steps, 1, ",", s, 4, [Token("ab"), Token("c"), Token(",")], [Token("ab"), Token("c"), Token(","), Token(",")]);
    StepsDone(DoubleComma.steps, s, 5, [Token("ab"), Token("c"), Token(","), Token(",")]);
  }

  lemma BranchSepListRecoverTerminatorStep4()
    ensures Resume(BranchSepList, "abc,,abd!!!", AtItem, 5, 1, [Token("ab"), Token("c"), Token(","), Token(",")]) == Outcome(true, 11, [Token("ab"), Token("c"), Token(","), Token(","), Token("ab"), ExpectedLiteral(7, "c", 0), Recovery, ErrorToken("d"), Finish, Token("!!!"), Position], Count(1))
  {
    var s := "abc,,abd!!!";
    assert s[5..7] == "ab";
    Hit("ab", s, 5);
    BranchSepListRecoverTerminatorStep4Part0(s);
    BranchSepListRecoverTerminatorStep5();
  }

  lemma BranchSepListRecoverTerminatorStep4Part0(s: string)
    requires s == "abc,,abd!!!"
    ensures StepsF(BranchItem.steps, s, 5, [Token("ab"), Token("c"), Token(","), Token(",")]) == Outcome(false, 7, [Token("ab"), Token("c"), Token(","), Token(","), Token("ab"), ExpectedLiteral(7, "c", 0)], NoValue)
  {
    StepsWhole(BranchItem.steps, s, 5, [Token("ab"), Token("c"), Token(","), Token(",")]);
    assert s[5..7] == "ab";
    LitHit(BranchItem.steps, 0, "ab", s, 5, [Token("ab"), Token("c"), Token(","), Token(",")], [Token("ab"), Token("c"), Token(","), Token(","), Token("ab")]);
    assert s[7..7] == "";
    assert "c"[..0] == "";
    LitMiss(BranchItem.steps, 1, "c", s, 7, 0, "", [Token("ab"), Token("c"), Token(","), Token(","), Token("ab")], [Token("ab"), Token("c"), Token(","), Token(","), Token("ab"), ExpectedLiteral(7, "c", 0)]);
  }

  lemma BranchSepListRecoverTerminatorStep5()
    ensures Resume(BranchSepList, "abc,,abd!!!", AtRecovery, 7, 1, [Token("ab"), Token("c"), Token(","), Token(","), Token("ab"), ExpectedLiteral(7, "c", 0)]) == Outcome(true, 11, [Token("ab"), Token("c"), Token(","), Token(","), Token("ab"), ExpectedLiteral(7, "c", 0), Recovery, ErrorToken("d"), Finish, Token("!!!"), Position], Count(1))
  {
    var s := "abc,,abd!!!";
    assert ListStops(BranchSepList) == ["!!!", ","];
    assert s[7..7] == "";
    assert "!!!"[..0] == "";
    Miss("!!!", s, 7, 0, "");
    assert s[7..7] == "";
    assert ","[..0] == "";
    Miss(",", s, 7, 0, "");
    Any2("!!!", ",", s, 7);
    assert s[7..7] == "";
    assert ";"[..0] == "";
    Miss(";", s, 7, 0, "");
    Any1(";", s, 7);
    ResyncNext(ListStops(BranchSepList), BranchSepList.term.limits, s, 7);
    assert s[8..11] == "!!!";
    Hit("!!!", s, 8);
    assert s[8..8] == "";
    assert ","[..0] == "";
    Miss(",", s, 8, 0, "");
    Any2("!!!", ",", s, 8);
    assert s[8..8] == "";
    assert ";"[..0] == "";
    Miss(";", s, 8, 0, "");
    Any1(";", s, 8);
    ResyncHere(ListStops(BranchSepList), BranchSepList.term.limits, s, 8);
    BranchSepListRecoverTerminatorStep5Part0(s);
    BranchSepListRecoverTerminatorStep5Part1(s);
  }

  lemma BranchSepListRecoverTerminatorStep5Part0(s: string)
    requires s == "abc,,abd!!!"
    ensures Skip(s, 7, 8, [Token("ab"), Token("c"), Token(","), Token(","), Token("ab"), ExpectedLiteral(7, "c", 0)] + [Recovery]) == [Token("ab"), Token("c"), Token(","), Token(","), Token("ab"), ExpectedLiteral(7, "c", 0), Recovery, ErrorToken("d")]
  {
    SkipStep(s, 7, 8, [Token("ab"), Token("c"), Token(","), Token(","), Token("ab"), ExpectedLiteral(7, "c", 0)] + [Recovery], [Token("ab"), Token("c"), Token(","), Token(","), Token("ab"), ExpectedLiteral(7, "c", 0), Recovery, ErrorToken("d")]);
    SkipDone(s, 8, [Token("ab"), Token("c"), Token(","), Token(","), Token("ab"), ExpectedLiteral(7, "c", 0), Recovery, ErrorToken("d")]);
  }

  lemma BranchSepListRecoverTerminatorStep5Part1(s: string)
    requires s == "abc,,abd!!!"
    ensures StepsF(TermRule(TestTerm).steps, s, 8, [Token("ab"), Token("c"), Token(","), Token(","), Token("ab"), ExpectedLiteral(7, "c", 0), Recovery, ErrorToken("d")] + [Finish]) == Outcome(true, 11, [Token("ab"), Token("c"), Token(","), Token(","), Token("ab"), ExpectedLiteral(7, "c", 0), Recovery, ErrorToken("d"), Finish, Token("!!!"), Position], NoValue)
  {
    StepsWhole(TermRule(TestTerm).steps, s, 8, [Token("ab"), Token("c"), Token(","), Token(","), Token("ab"), ExpectedLiteral(7, "c", 0), Recovery, ErrorToken("d")] + [Finish]);
    assert s[8..11] == "!!!";
    LitHit(TermRule(TestTerm).steps, 0, "!!!", s, 8, [Token("ab"), Token("c"), Token(","), Token(","), Token("ab"), ExpectedLiteral(7, "c", 0), Recovery, ErrorToken("d")] + [Finish], [Token("ab"), Token("c"), Token(","), Token(","), Token("ab"), ExpectedLiteral(7, "c", 0), Recovery, ErrorToken("d"), Finish, Token("!!!")]);
    PosStep(TermRule(TestTerm).steps, 1, s, 11, [Token("ab"), Token("c"), Token(","), Token(","), Token("ab"), ExpectedLiteral(7, "c", 0), Recovery, ErrorToken("d"), Finish, Token("!!!")], [Token("ab"), Token("c"), Token(","), Token(","), Token("ab"), ExpectedLiteral(7, "c", 0), Recovery, ErrorToken("d"), Finish, Token("!!!"), Position]);
    StepsDone(TermRule(TestTerm).steps, s, 11, [Token("ab"), Token("c"), Token(","), Token(","), Token("ab"), ExpectedLiteral(7, "c", 0), Recovery, ErrorToken("d"), Finish, Token("!!!"), Position]);
  }

  lemma BranchSepListRecoverTerminatorVerdict()
    ensures Verify(Outcome(true, 11, [Token("ab"), Token("c"), Token(","), Token(","), Token("ab"), ExpectedLiteral(7, "c", 0), Recovery, ErrorToken("d"), Finish, Token("!!!"), Position], Count(1))) == TestResult(RecoveredError, Count(1), [Token("ab"), Token("c"), Token(","), Token(","), Token("ab"), ExpectedLiteral(7, "c", 0), Recovery, ErrorToken("d"), Finish, Token("!!!"), Position])
  {
    VerifyRecovered(Outcome(true, 11, [Token("ab"), Token("c"), Token(","), Token(","), Token("ab"), ExpectedLiteral(7, "c", 0), Recovery, ErrorToken("d"), Finish, Token("!!!"), Position], Count(1)), 5);
  }

  /** `.list(branch, sep)` on "abc,,abd;abc!!!". */
  lemma BranchSepListRecoverLimit()
    ensures Verify(ListF(BranchSepList, "abc,,abd;abc!!!", 0, [])) == TestResult(FatalError, Count(1), [Token("ab"), Token("c"), Token(","), Token(","), Token("ab"), ExpectedLiteral(7, "c", 0), Recovery, ErrorToken("d"), Cancel, Cancel])
  {
    BranchSepListRecoverLimitStep0();
    BranchSepListRecoverLimitVerdict();
  }

  lemma BranchSepListRecoverLimitStep0()
    ensures ListF(BranchSepList, "abc,,abd;abc!!!", 0, []) == Outcome(false, 8, [Token("ab"), Token("c"), Token(","), Token(","), Token("ab"), ExpectedLiteral(7, "c", 0), Recovery, ErrorToken("d"), Cancel], Count(1))
  {
    var s := "abc,,abd;abc!!!";
    BranchSepListRecoverLimitStep1();
  }

  lemma BranchSepListRecoverLimitStep1()
    ensures Resume(BranchSepList, "abc,,abd;abc!!!", AtItem, 0, 0, []) == Outcome(false, 8, [Token("ab"), Token("c"), Token(","), Token(","), Token("ab"), ExpectedLiteral(7, "c", 0), Recovery, ErrorToken("d"), Cancel], Count(1))
  {
    var s := "abc,,abd;abc!!!";
    assert s[0..2] == "ab";
    Hit("ab", s, 0);
    BranchSepListRecoverLimitStep1Part0(s);
    BranchSepListRecoverLimitStep2();
  }

  lemma BranchSepListRecoverLimitStep1Part0(s: string)
    requires s == "abc,,abd;abc!!!"
    ensures StepsF(BranchItem.steps, s, 0, []) == Outcome(true, 3, [Token("ab"), Token("c")], NoValue)
  {
    StepsWhole(BranchItem.steps, s, 0, []);
    assert s[0..2] == "ab";
    LitHit(BranchItem.steps, 0, "ab", s, 0, [], [Token("ab")]);
    assert s[2..3] == "c";
    LitHit(BranchItem.steps, 1, "c", s, 2, [Token("ab")], [Token("ab"), Token("c")]);
    StepsDone(BranchItem.steps, s, 3, [Token("ab"), Token("c")]);
  }

  lemma BranchSepListRecoverLimitStep2()
    ensures Resume(BranchSepList, "abc,,abd;abc!!!", AtTerminator, 3, 1, [Token("ab"), Token("c")]) == Outcome(false, 8, [Token("ab"), Token("c"), Token(","), Token(","), Token("ab"), ExpectedLiteral(7, "c", 0), Recovery, ErrorToken("d"), Cancel], Count(1))
  {
    var s := "abc,,abd;abc!!!";
    assert s[3..3] == "";
    assert "!!!"[..0] == "";
    Miss("!!!", s, 3, 0, "");
    BranchSepListRecoverLimitStep3();
  }

  lemma BranchSepListRecoverLimitStep3()
    ensures Resume(BranchSepList, "abc,,abd;abc!!!", AtSeparator, 3, 1, [Token("ab"), Token("c")]) == Outcome(false, 8, [Token("ab"), Token("c"), Token(","), Token(","), Token("ab"), ExpectedLiteral(7, "c", 0), Recovery, ErrorToken("d"), Cancel], Count(1))
  {
    var s := "abc,,abd;abc!!!";
    BranchSepListRecoverLimitStep3Part0(s);
    assert s[5..5] == "";
    assert "!!!"[..0] == "";
    Miss("!!!", s, 5, 0, "");
    BranchSepListRecoverLimitStep4();
  }

  lemma BranchSepListRecoverLimitStep3Part0(s: string)
    requires s == "abc,,abd;abc!!!"
    ensures StepsF(DoubleComma.steps, s, 3, [Token("ab"), Token("c")]) == Outcome(true, 5, [Token("ab"), Token("c"), Token(","), Token(",")], NoValue)
  {
    StepsWhole(DoubleComma.steps, s, 3, [Token("ab"), Token("c")]);
    assert s[3..4] == ",";
    LitHit(DoubleComma.steps, 0, ",", s, 3, [Token("ab"), Token("c")], [Token("ab"), Token("c"), Token(",")]);
    assert s[4..5] == ",";
    LitHit(DoubleComma.steps, 1, ",", s, 4, [Token("ab"), Token("c"), Token(",")], [Token("ab"), Token("c"), Token(","), Token(",")]);
    StepsDone(DoubleComma.steps, s, 5, [Token("ab"), Token("c"), Token(","), Token(",")]);
  }

  lemma BranchSepListRecoverLimitStep4()
    ensures Resume(BranchSepList, "abc,,abd;abc!!!", AtItem, 5, 1, [Token("ab"), Token("c"), Token(","), Token(",")]) == Outcome(false, 8, [Token("ab"), Token("c"), Token(","), Token(","), Token("ab"), ExpectedLiteral(7, "c", 0), Recovery, ErrorToken("d"), Cancel], Count(1))
  {
    var s := "abc,,abd;abc!!!";
    assert s[5..7] == "ab";
    Hit("ab", s, 5);
    BranchSepListRecoverLimitStep4Part0(s);
    BranchSepListRecoverLimitStep5();
  }

  lemma BranchSepListRecoverLimitStep4Part0(s: string)
    requires s == "abc,,abd;abc!!!"
    ensures StepsF(BranchItem.steps, s, 5, [Token("ab"), Token("c"), Token(","), Token(",")]) == Outcome(false, 7, [Token("ab"), Token("c"), Token(","), Token(","), Token("ab"), ExpectedLiteral(7, "c", 0)], NoValue)
  {
    StepsWhole(BranchItem.steps, s, 5, [Token("ab"), Token("c"), Token(","), Token(",")]);
    assert s[5..7] == "ab";
    LitHit(BranchItem.steps, 0, "ab", s, 5, [Token("ab"), Token("c"), Token(","), Token(",")], [Token("ab"), Token("c"), Token(","), Token(","), Token("ab")]);
    assert s[7..7] == "";
    assert "c"[..0] == "";
    LitMiss(BranchItem.steps, 1, "c", s, 7, 0, "", [Token("ab"), Token("c"), Token(","), Token(","), Token("ab")], [Token("ab"), Token("c"), Token(","), Token(","), Token("ab"), ExpectedLiteral(7, "c", 0)]);
  }

  lemma BranchSepListRecoverLimitStep5()
    ensures Resume(BranchSepList, "abc,,abd;abc!!!", AtRecovery, 7, 1, [Token("ab"), Token("c"), Token(","), Token(","), Token("ab"), ExpectedLiteral(7, "c", 0)]) == Outcome(false, 8, [Token("ab"), Token("c"), Token(","), Token(","), Token("ab"), ExpectedLiteral(7, "c", 0), Recovery, ErrorToken("d"), Cancel], Count(1))
  {
    var s := "abc,,abd;abc!!!";
    assert ListStops(BranchSepList) == ["!!!", ","];
    assert s[7..7] == "";
    assert "!!!"[..0] == "";
    Miss("!!!", s, 7, 0, "");
    assert s[7..7] == "";
    assert ","[..0] == "";
    Miss(",", s, 7, 0, "");
    Any2("!!!", ",", s, 7);
    assert s[7..7] == "";
    assert ";"[..0] == "";
    Miss(";", s, 7, 0, "");
    Any1(";", s, 7);
    ResyncNext(ListStops(BranchSepList), BranchSepList.term.limits, s, 7);
    assert s[8..8] == "";
    assert "!!!"[..0] == "";
    Miss("!!!", s, 8, 0, "");
    assert s[8..8] == "";
    assert ","[..0] == "";
    Miss(",", s, 8, 0, "");
    Any2("!!!", ",", s, 8);
    assert s[8..9] == ";";
    Hit(";", s, 8);
    Any1(";", s, 8);
    ResyncHere(ListStops(BranchSepList), BranchSepList.term.limits, s, 8);
    BranchSepListRecoverLimitStep5Part0(s);
  }

  lemma BranchSepListRecoverLimitStep5Part0(s: string)
    requires s == "abc,,abd;abc!!!"
    ensures Skip(s, 7, 8, [Token("ab"), Token("c"), Token(","), Token(","), Token("ab"), ExpectedLiteral(7, "c", 0)] + [Recovery]) == [Token("ab"), Token("c"), Token(","), Token(","), Token("ab"), ExpectedLiteral(7, "c", 0), Recovery, ErrorToken("d")]
  {
    SkipStep(s, 7, 8, [Token("ab"), Token("c"), Token(","), Token(","), Token("ab"), ExpectedLiteral(7, "c", 0)] + [Recovery], [Token("ab"), Token("c"), Token(","), Token(","), Token("ab"), ExpectedLiteral(7, "c", 0), Recovery, ErrorToken("d")]);
    SkipDone(s, 8, [Token("ab"), Token("c"), Token(","), Token(","), Token("ab"), ExpectedLiteral(7, "c", 0), Recovery, ErrorToken("d")]);
  }

  lemma BranchSepListRecoverLimitVerdict()
    ensures Verify(Outcome(false, 8, [Token("ab"), Token("c"), Token(","), Token(","), Token("ab"), ExpectedLiteral(7, "c", 0), Recovery, ErrorToken("d"), Cancel], Count(1))) == TestResult(FatalError, Count(1), [Token("ab"), Token("c"), Token(","), Token(","), Token("ab"), ExpectedLiteral(7, "c", 0), Recovery, ErrorToken("d"), Cancel, Cancel])
  {
    VerifyFatal(Outcome(false, 8, [Token("ab"), Token("c"), Token(","), Token(","), Token("ab"), ExpectedLiteral(7, "c", 0), Recovery, ErrorToken("d"), Cancel], Count(1)), [Token("ab"), Token("c"), Token(","), Token(","), Token("ab"), ExpectedLiteral(7, "c", 0), Recovery, ErrorToken("d"), Cancel, Cancel]);
  }

  /** `.list(rule, sep)` on "". */
  lemma RuleSepListEmpty()
    ensures Verify(ListF(RuleSepList, "", 0, [])) == TestResult(FatalError, Count(0), [ExpectedLiteral(0, "ab", 0), Recovery, Cancel, Cancel])
  {
    RuleSepListEmptyStep0();
    RuleSepListEmptyVerdict();
  }

  lemma RuleSepListEmptyStep0()
    ensures ListF(RuleSepList, "", 0, []) == Outcome(false, 0, [ExpectedLiteral(0, "ab", 0), Recovery, Cancel], Count(0))
  {
    var s := "";
    RuleSepListEmptyStep1();
  }

  lemma RuleSepListEmptyStep1()
    ensures Resume(RuleSepList, "", AtItem, 0, 0, []) == Outcome(false, 0, [ExpectedLiteral(0, "ab", 0), Recovery, Cancel], Count(0))
  {
    var s := "";
    assert s[0..0] == "";
    assert "ab"[..0] == "";
    Miss("ab", s, 0, 0, "");
    RuleSepListEmptyStep1Part0(s);
    RuleSepListEmptyStep2();
  }

  lemma RuleSepListEmptyStep1Part0(s: string)
    requires s == ""
    ensures StepsF(RuleItem.steps, s, 0, []) == Outcome(false, 0, [ExpectedLiteral(0, "ab", 0)], NoValue)
  {
    StepsWhole(RuleItem.steps, s, 0, []);
    assert s[0..0] == "";
    assert "ab"[..0] == "";
    LitMiss(RuleItem.steps, 0, "ab", s, 0, 0, "", [], [ExpectedLiteral(0, "ab", 0)]);
  }

  lemma RuleSepListEmptyStep2()
    ensures Resume(RuleSepList, "", AtRecovery, 0, 0, [ExpectedLiteral(0, "ab", 0)]) == Outcome(false, 0, [ExpectedLiteral(0, "ab", 0), Recovery, Cancel], Count(0))
  {
    var s := "";
    assert ListStops(RuleSepList) == ["!!!", ","];
    assert s[0..0] == "";
    assert "!!!"[..0] == "";
    Miss("!!!", s, 0, 0, "");
    assert s[0..0] == "";
    assert ","[..0] == "";
    Miss(",", s, 0, 0, "");
    Any2("!!!", ",", s, 0);
    ResyncHere(ListStops(RuleSepList), RuleSepList.term.limits, s, 0);
    RuleSepListEmptyStep2Part0(s);
  }

  lemma RuleSepListEmptyStep2Part0(s: string)
    requires s == ""
    ensures Skip(s, 0, 0, [ExpectedLiteral(0, "ab", 0)] + [Recovery]) == [ExpectedLiteral(0, "ab", 0), Recovery]
  {
    SkipDone(s, 0, [ExpectedLiteral(0, "ab", 0)] + [Recovery]);
  }

  lemma RuleSepListEmptyVerdict()
    ensures Verify(Outcome(false, 0, [ExpectedLiteral(0, "ab", 0), Recovery, Cancel], Count(0))) == TestResult(FatalError, Count(0), [ExpectedLiteral(0, "ab", 0), Recovery, Cancel, Cancel])
  {
    VerifyFatal(Outcome(false, 0, [ExpectedLiteral(0, "ab", 0), Recovery, Cancel], Count(0)), [ExpectedLiteral(0, "ab", 0), Recovery, Cancel, Cancel]);
  }

  /** `.list(rule, sep)` on "!!!". */
  lemma RuleSepListTerminatorOnly()
    ensures Verify(ListF(RuleSepList, "!!!", 0, [])) == TestResult(RecoveredError, Count(0), [ExpectedLiteral(0, "ab", 0), Recovery, Finish, Token("!!!"), Position])
  {
    RuleSepListTerminatorOnlyStep0();
    RuleSepListTerminatorOnlyVerdict();
  }

  lemma RuleSepListTerminatorOnlyStep0()
    ensures ListF(RuleSepList, "!!!", 0, []) == Outcome(true, 3, [ExpectedLiteral(0, "ab", 0), Recovery, Finish, Token("!!!"), Position], Count(0))
  {
    var s := "!!!";
    RuleSepListTerminatorOnlyStep1();
  }

  lemma RuleSepListTerminatorOnlyStep1()
    ensures Resume(RuleSepList, "!!!", AtItem, 0, 0, []) == Outcome(true, 3, [ExpectedLiteral(0, "ab", 0), Recovery, Finish, Token("!!!"), Position], Count(0))
  {
    var s := "!!!";
    assert s[0..0] == "";
    assert "ab"[..0] == "";
    Miss("ab", s, 0, 0, "");
    RuleSepListTerminatorOnlyStep1Part0(s);
    RuleSepListTerminatorOnlyStep2();
  }

  lemma RuleSepListTerminatorOnlyStep1Part0(s: string)
    requires s == "!!!"
    ensures StepsF(RuleItem.steps, s, 0, []) == Outcome(false, 0, [ExpectedLiteral(0, "ab", 0)], NoValue)
  {
    StepsWhole(RuleItem.steps, s, 0, []);
    assert s[0..0] == "";
    assert "ab"[..0] == "";
    LitMiss(RuleItem.steps, 0, "ab", s, 0, 0, "", [], [ExpectedLiteral(0, "ab", 0)]);
  }

  lemma RuleSepListTerminatorOnlyStep2()
    ensures Resume(RuleSepList, "!!!", AtRecovery, 0, 0, [ExpectedLiteral(0, "ab", 0)]) == Outcome(true, 3, [ExpectedLiteral(0, "ab", 0), Recovery, Finish, Token("!!!"), Position], Count(0))
  {
    var s := "!!!";
    assert ListStops(RuleSepList) == ["!!!", ","];
    assert s[0..3] == "!!!";
    Hit("!!!", s, 0);
    assert s[0..0] == "";
    assert ","[..0] == "";
    Miss(",", s, 0, 0, "");
    Any2("!!!", ",", s, 0);
    assert s[0..0] == "";
    assert ";"[..0] == "";
    Miss(";", s, 0, 0, "");
    Any1(";", s, 0);
    ResyncHere(ListStops(RuleSepList), RuleSepList.term.limits, s, 0);
    RuleSepListTerminatorOnlyStep2Part0(s);
    RuleSepListTerminatorOnlyStep2Part1(s);
  }

  lemma RuleSepListTerminatorOnlyStep2Part0(s: string)
    requires s == "!!!"
    ensures Skip(s, 0, 0, [ExpectedLiteral(0, "ab", 0)] + [Recovery]) == [ExpectedLiteral(0, "ab", 0), Recovery]
  {
    SkipDone(s, 0, [ExpectedLiteral(0, "ab", 0)] + [Recovery]);
  }

  lemma RuleSepListTerminatorOnlyStep2Part1(s: string)
    requires s == "!!!"
    ensures StepsF(TermRule(TestTerm).steps, s, 0, [ExpectedLiteral(0, "ab", 0), Recovery] + [Finish]) == Outcome(true, 3, [ExpectedLiteral(0, "ab", 0), Recovery, Finish, Token("!!!"), Position], NoValue)
  {
    StepsWhole(TermRule(TestTerm).steps, s, 0, [ExpectedLiteral(0, "ab", 0), Recovery] + [Finish]);
    assert s[0..3] == "!!!";
    LitHit(TermRule(TestTerm).steps, 0, "!!!", s, 0, [ExpectedLiteral(0, "ab", 0), Recovery] + [Finish], [ExpectedLiteral(0, "ab", 0), Recovery, Finish, Token("!!!")]);
    PosStep(TermRule(TestTerm).steps, 1, s, 3, [ExpectedLiteral(0, "ab", 0), Recovery, Finish, Token("!!!")], [ExpectedLiteral(0, "ab", 0), Recovery, Finish, Token("!!!"), Position]);
    StepsDone(TermRule(TestTerm).steps, s, 3, [ExpectedLiteral(0, "ab", 0), Recovery, Finish, Token("!!!"), Position]);
  }

  lemma RuleSepListTerminatorOnlyVerdict()
    ensures Verify(Outcome(true, 3, [ExpectedLiteral(0, "ab", 0), Recovery, Finish, Token("!!!"), Position], Count(0))) == TestResult(RecoveredError, Count(0), [ExpectedLiteral(0, "ab", 0), Recovery, Finish, Token("!!!"), Position])
  {
    VerifyRecovered(Outcome(true, 3, [ExpectedLiteral(0, "ab", 0), Recovery, Finish, Token("!!!"), Position], Count(0)), 0);
  }

  /** `.list(rule, sep)` on "abc!!!". */
  lemma RuleSepListOne()
    ensures Verify(ListF(RuleSepList, "abc!!!", 0, [])) == TestResult(Success, Count(1), [Token("ab"), Token("c"), Token("!!!"), Position])
  {
    RuleSepListOneStep0();
    RuleSepListOneVerdict();
  }

  lemma RuleSepListOneStep0()
    ensures ListF(RuleSepList, "abc!!!", 0, []) == Outcome(true, 6, [Token("ab"), Token("c"), Token("!!!"), Position], Count(1))
  {
    var s := "abc!!!";
    RuleSepListOneStep1();
  }

  lemma RuleSepListOneStep1()
    ensures Resume(RuleSepList, "abc!!!", AtItem, 0, 0, []) == Outcome(true, 6, [Token("ab"), Token("c"), Token("!!!"), Position], Count(1))
  {
    var s := "abc!!!";
    assert s[0..2] == "ab";
    Hit("ab", s, 0);
    RuleSepListOneStep1Part0(s);
    RuleSepListOneStep2();
  }

  lemma RuleSepListOneStep1Part0(s: string)
    requires s == "abc!!!"
    ensures StepsF(RuleItem.steps, s, 0, []) == Outcome(true, 3, [Token("ab"), Token("c")], NoValue)
  {
    StepsWhole(RuleItem.steps, s, 0, []);
    assert s[0..2] == "ab";
    LitHit(RuleItem.steps, 0, "ab", s, 0, [], [Token("ab")]);
    assert s[2..3] == "c";
    LitHit(RuleItem.steps, 1, "c", s, 2, [Token("ab")], [Token("ab"), Token("c")]);
    StepsDone(RuleItem.steps, s, 3, [Token("ab"), Token("c")]);
  }

  lemma RuleSepListOneStep2()
    ensures Resume(RuleSepList, "abc!!!", AtTerminator, 3, 1, [Token("ab"), Token("c")]) == Outcome(true, 6, [Token("ab"), Token("c"), Token("!!!"), Position], Count(1))
  {
    var s := "abc!!!";
    assert s[3..6] == "!!!";
    Hit("!!!", s, 3);
    RuleSepListOneStep2Part0(s);
  }

  lemma RuleSepListOneStep2Part0(s: string)
    requires s == "abc!!!"
    ensures StepsF(TermRule(TestTerm).steps, s, 3, [Token("ab"), Token("c")]) == Outcome(true, 6, [Token("ab"), Token("c"), Token("!!!"), Position], NoValue)
  {
    StepsWhole(TermRule(TestTerm).steps, s, 3, [Token("ab"), Token("c")]);
    assert s[3..6] == "!!!";
    LitHit(TermRule(TestTerm).steps, 0, "!!!", s, 3, [Token("ab"), Token("c")], [Token("ab"), Token("c"), Token("!!!")]);
    PosStep(TermRule(TestTerm).steps, 1, s, 6, [Token("ab"), Token("c"), Token("!!!")], [Token("ab"), Token("c"), Token("!!!"), Position]);
    StepsDone(TermRule(TestTerm).steps, s, 6, [Token("ab"), Token("c"), Token("!!!"), Position]);
  }

  lemma RuleSepListOneVerdict()
    ensures Verify(Outcome(true, 6, [Token("ab"), Token("c"), Token("!!!"), Position], Count(1))) == TestResult(Success, Count(1), [Token("ab"), Token("c"), Token("!!!"), Position])
  {
    VerifySuccess(Outcome(true, 6, [Token("ab"), Token("c"), Token("!!!"), Position], Count(1)));
  }

  /** `.list(rule, sep)` on "abc,,abc!!!". */
  lemma RuleSepListTwo()
    ensures Verify(ListF(RuleSepList, "abc,,abc!!!", 0, [])) == TestResult(Success, Count(2), [Token("ab"), Token("c"), Token(","), Token(","), Token("ab"), Token("c"), Token("!!!"), Position])
  {
    RuleSepListTwoStep0();
    RuleSepListTwoVerdict();
  }

  lemma RuleSepListTwoStep0()
    ensures ListF(RuleSepList, "abc,,abc!!!", 0, []) == Outcome(true, 11, [Token("ab"), Token("c"), Token(","), Token(","), Token("ab"), Token("c"), Token("!!!"), Position], Count(2))
  {
    var s := "abc,,abc!!!";
    RuleSepListTwoStep1();
  }

  lemma RuleSepListTwoStep1()
    ensures Resume(RuleSepList, "abc,,abc!!!", AtItem, 0, 0, []) == Outcome(true, 11, [Token("ab"), Token("c"), Token(","), Token(","), Token("ab"), Token("c"), Token("!!!"), Position], Count(2))
  {
    var s := "abc,,abc!!!";
    assert s[0..2] == "ab";
    Hit("ab", s, 0);
    RuleSepListTwoStep1Part0(s);
    RuleSepListTwoStep2();
  }

  lemma RuleSepListTwoStep1Part0(s: string)
    requires s == "abc,,abc!!!"
    ensures StepsF(RuleItem.steps, s, 0, []) == Outcome(true, 3, [Token("ab"), Token("c")], NoValue)
  {
    StepsWhole(RuleItem.steps, s, 0, []);
    assert s[0..2] == "ab";
    LitHit(RuleItem.steps, 0, "ab", s, 0, [], [Token("ab")]);
    assert s[2..3] == "c";
    LitHit(RuleItem.steps, 1, "c", s, 2, [Token("ab")], [Token("ab"), Token("c")]);
    StepsDone(RuleItem.steps, s, 3, [Token("ab"), Token("c")]);
  }

  lemma RuleSepListTwoStep2()
    ensures Resume(RuleSepList, "abc,,abc!!!", AtTerminator, 3, 1, [Token("ab"), Token("c")]) == Outcome(true, 11, [Token("ab"), Token("c"), Token(","), Token(","), Token("ab"), Token("c"), Token("!!!"), Position], Count(2))
  {
    var s := "abc,,abc!!!";
    assert s[3..3] == "";
    assert "!!!"[..0] == "";
    Miss("!!!", s, 3, 0, "");
    RuleSepListTwoStep3();
  }

  lemma RuleSepListTwoStep3()
    ensures Resume(RuleSepList, "abc,,abc!!!", AtSeparator, 3, 1, [Token("ab"), Token("c")]) == Outcome(true, 11, [Token("ab"), Token("c"), Token(","), Token(","), Token("ab"), Token("c"), Token("!!!"), Position], Count(2))
  {
    var s := "abc,,abc!!!";
    RuleSepListTwoStep3Part0(s);
    assert s[5..5] == "";
    assert "!!!"[..0] == "";
    Miss("!!!", s, 5, 0, "");
    RuleSepListTwoStep4();
  }

  lemma RuleSepListTwoStep3Part0(s: string)
    requires s == "abc,,abc!!!"
    ensures StepsF(DoubleComma.steps, s, 3, [Token("ab"), Token("c")]) == Outcome(true, 5, [Token("ab"), Token("c"), Token(","), Token(",")], NoValue)
  {
    StepsWhole(DoubleComma.steps, s, 3, [Token("ab"), Token("c")]);
    assert s[3..4] == ",";
    LitHit(DoubleComma.steps, 0, ",", s, 3, [Token("ab"), Token("c")], [Token("ab"), Token("c"), Token(",")]);
    assert s[4..5] == ",";
    LitHit(DoubleComma.steps, 1, ",", s, 4, [Token("ab"), Token("c"), Token(",")], [Token("ab"), Token("c"), Token(","), Token(",")]);
    StepsDone(DoubleComma.steps, s, 5, [Token("ab"), Token("c"), Token(","), Token(",")]);
  }

  lemma RuleSepListTwoStep4()
    ensures Resume(RuleSepList, "abc,,abc!!!", AtItem, 5, 1, [Token("ab"), Token("c"), Token(","), Token(",")]) == Outcome(true, 11, [Token("ab"), Token("c"), Token(","), Token(","), Token("ab"), Token("c"), Token("!!!"), Position], Count(2))
  {
    var s := "abc,,abc!!!";
    assert s[5..7] == "ab";
    Hit("ab", s, 5);
    RuleSepListTwoStep4Part0(s);
    RuleSepListTwoStep5();
  }

  lemma RuleSepListTwoStep4Part0(s: string)
    requires s == "abc,,abc!!!"
    ensures StepsF(RuleItem.steps, s, 5, [Token("ab"), Token("c"), Token(","), Token(",")]) == Outcome(true, 8, [Token("ab"), Token("c"), Token(","), Token(","), Token("ab"), Token("c")], NoValue)
  {
    StepsWhole(RuleItem.steps, s, 5, [Token("ab"), Token("c"), Token(","), Token(",")]);
    assert s[5..7] == "ab";
    LitHit(RuleItem.steps, 0, "ab", s, 5, [Token("ab"), Token("c"), Token(","), Token(",")], [Token("ab"), Token("c"), Token(","), Token(","), Token("ab")]);
    assert s[7..8] == "c";
    LitHit(RuleItem.steps, 1, "c", s, 7, [Token("ab"), Token("c"), Token(","), Token(","), Token("ab")], [Token("ab"), Token("c"), Token(","), Token(","), Token("ab"), Token("c")]);
    StepsDone(RuleItem.steps, s, 8, [Token("ab"), Token("c"), Token(","), Token(","), Token("ab"), Token("c")]);
  }

  lemma RuleSepListTwoStep5()
    ensures Resume(RuleSepList, "abc,,abc!!!", AtTerminator, 8, 2, [Token("ab"), Token("c"), Token(","), Token(","), Token("ab"), Token("c")]) == Outcome(true, 11, [Token("ab"), Token("c"), Token(","), Token(","), Token("ab"), Token("c"), Token("!!!"), Position], Count(2))
  {
    var s := "abc,,abc!!!";
    assert s[8..11] == "!!!";
    Hit("!!!", s, 8);
    RuleSepListTwoStep5Part0(s);
  }

  lemma RuleSepListTwoStep5Part0(s: string)
    requires s == "abc,,abc!!!"
    ensures StepsF(TermRule(TestTerm).steps, s, 8, [Token("ab"), Token("c"), Token(","), Token(","), Token("ab"), Token("c")]) == Outcome(true, 11, [Token("ab"), Token("c"), Token(","), Token(","), Token("ab"), Token("c"), Token("!!!"), Position], NoValue)
  {
    StepsWhole(TermRule(TestTerm).steps, s, 8, [Token("ab"), Token("c"), Token(","), Token(","), Token("ab"), Token("c")]);
    assert s[8..11] == "!!!";
    LitHit(TermRule(TestTerm).steps, 0, "!!!", s, 8, [Token("ab"), Token("c"), Token(","), Token(","), Token("ab"), Token("c")], [Token("ab"), Token("c"), Token(","), Token(","), Token("ab"), Token("c"), Token("!!!")]);
    PosStep(TermRule(TestTerm).steps, 1, s, 11, [Token("ab"), Token("c"), Token(","), Token(","), Token("ab"), Token("c"), Token("!!!")], [Token("ab"), Token("c"), Token(","), Token(","), Token("ab"), Token("c"), Token("!!!"), Position]);
    StepsDone(TermRule(TestTerm).steps, s, 11, [Token("ab"), Token("c"), Token(","), Token(","), Token("ab"), Token("c"), Token("!!!"), Position]);
  }

  lemma RuleSepListTwoVerdict()
    ensures Verify(Outcome(true, 11, [Token("ab"), Token("c"), Token(","), Token(","), Token("ab"), Token("c"), Token("!!!"), Position], Count(2))) == TestResult(Success, Count(2), [Token("ab"), Token("c"), Token(","), Token(","), Token("ab"), Token("c"), Token("!!!"), Position])
  {
    VerifySuccess(Outcome(true, 11, [Token("ab"), Token("c"), Token(","), Token(","), Token("ab"), Token("c"), Token("!!!"), Position], Count(2)));
  }

  /** `.list(rule, sep)` on "abc,,abc,,abc!!!". */
  lemma RuleSepListThree()
    ensures Verify(ListF(RuleSepList, "abc,,abc,,abc!!!", 0, [])) == TestResult(Success, Count(3), [Token("ab"), Token("c"), Token(","), Token(","), Token("ab"), Token("c"), Token(","), Token(","), Token("ab"), Token("c"), Token("!!!"), Position])
  {
    RuleSepListThreeStep0();
    RuleSepListThreeVerdict();
  }

  lemma RuleSepListThreeStep0()
    ensures ListF(RuleSepList, "abc,,abc,,abc!!!", 0, []) == Outcome(true, 16, [Token("ab"), Token("c"), Token(","), Token(","), Token("ab"), Token("c"), Token(","), Token(","), Token("ab"), Token("c"), Token("!!!"), Position], Count(3))
  {
    var s := "abc,,abc,,abc!!!";
    RuleSepListThreeStep1();
  }

  lemma RuleSepListThreeStep1()
    ensures Resume(RuleSepList, "abc,,abc,,abc!!!", AtItem, 0, 0, []) == Outcome(true, 16, [Token("ab"), Token("c"), Token(","), Token(","), Token("ab"), Token("c"), Token(","), Token(","), Token("ab"), Token("c"), Token("!!!"), Position], Count(3))
  {
    var s := "abc,,abc,,abc!!!";
    assert s[0..2] == "ab";
    Hit("ab", s, 0);
    RuleSepListThreeStep1Part0(s);
    RuleSepListThreeStep2();
  }

  lemma RuleSepListThreeStep1Part0(s: string)
    requires s == "abc,,abc,,abc!!!"
    ensures StepsF(RuleItem.steps, s, 0, []) == Outcome(true, 3, [Token("ab"), Token("c")], NoValue)
  {
    StepsWhole(RuleItem.steps, s, 0, []);
    assert s[0..2] == "ab";
    LitHit(RuleItem.steps, 0, "ab", s, 0, [], [Token("ab")]);
    assert s[2..3] == "c";
    LitHit(RuleItem.steps, 1, "c", s, 2, [Token("ab")], [Token("ab"), Token("c")]);
    StepsDone(RuleItem.steps, s, 3, [Token("ab"), Token("c")]);
  }

  lemma RuleSepListThreeStep2()
    ensures Resume(RuleSepList, "abc,,abc,,abc!!!", AtTerminator, 3, 1, [Token("ab"), Token("c")]) == Outcome(true, 16, [Token("ab"), Token("c"), Token(","), Token(","), Token("ab"), Token("c"), Token(","), Token(","), Token("ab"), Token("c"), Token("!!!"), Position], Count(3))
  {
    var s := "abc,,abc,,abc!!!";
    assert s[3..3] == "";
    assert "!!!"[..0] == "";
    Miss("!!!", s, 3, 0, "");
    RuleSepListThreeStep3();
  }

  lemma RuleSepListThreeStep3()
    ensures Resume(RuleSepList, "abc,,abc,,abc!!!", AtSeparator, 3, 1, [Token("ab"), Token("c")]) == Outcome(true, 16, [Token("ab"), Token("c"), Token(","), Token(","), Token("ab"), Token("c"), Token(","), Token(","), Token("ab"), Token("c"), Token("!!!"), Position], Count(3))
  {
    var s := "abc,,abc,,abc!!!";
    RuleSepListThreeStep3Part0(s);
    assert s[5..5] == "";
    assert "!!!"[..0] == "";
    Miss("!!!", s, 5, 0, "");
    RuleSepListThreeStep4();
  }

  lemma RuleSepListThreeStep3Part0(s: string)
    requires s == "abc,,abc,,abc!!!"
    ensures StepsF(DoubleComma.steps, s, 3, [Token("ab"), Token("c")]) == Outcome(true, 5, [Token("ab"), Token("c"), Token(","), Token(",")], NoValue)
  {
    StepsWhole(DoubleComma.steps, s, 3, [Token("ab"), Token("c")]);
    assert s[3..4] == ",";
    LitHit(DoubleComma.steps, 0, ",", s, 3, [Token("ab"), Token("c")], [Token("ab"), Token("c"), Token(",")]);
    assert s[4..5] == ",";
    LitHit(DoubleComma.steps, 1, ",", s, 4, [Token("ab"), Token("c"), Token(",")], [Token("ab"), Token("c"), Token(","), Token(",")]);
    StepsDone(DoubleComma.steps, s, 5, [Token("ab"), Token("c"), Token(","), Token(",")]);
  }

  lemma RuleSepListThreeStep4()
    ensures Resume(RuleSepList, "abc,,abc,,abc!!!", AtItem, 5, 1, [Token("ab"), Token("c"), Token(","), Token(",")]) == Outcome(true, 16, [Token("ab"), Token("c"), Token(","), Token(","), Token("ab"), Token("c"), Token(","), Token(","), Token("ab"), Token("c"), Token("!!!"), Position], Count(3))
  {
    var s := "abc,,abc,,abc!!!";
    assert s[5..7] == "ab";
    Hit("ab", s, 5);
    RuleSepListThreeStep4Part0(s);
    RuleSepListThreeStep5();
  }

  lemma RuleSepListThreeStep4Part0(s: string)
    requires s == "abc,,abc,,abc!!!"
    ensures StepsF(RuleItem.steps, s, 5, [Token("ab"), Token("c"), Token(","), Token(",")]) == Outcome(true, 8, [Token("ab"), Token("c"), Token(","), Token(","), Token("ab"), Token("c")], NoValue)
  {
    StepsWhole(RuleItem.steps, s, 5, [Token("ab"), Token("c"), Token(","), Token(",")]);
    assert s[5..7] == "ab";
    LitHit(RuleItem.steps, 0, "ab", s, 5, [Token("ab"), Token("c"), Token(","), Token(",")], [Token("ab"), Token("c"), Token(","), Token(","), Token("ab")]);
    assert s[7..8] == "c";
    LitHit(RuleItem.steps, 1, "c", s, 7, [Token("ab"), Token("c"), Token(","), Token(","), Token("ab")], [Token("ab"), Token("c"), Token(","), Token(","), Token("ab"), Token("c")]);
    StepsDone(RuleItem.steps, s, 8, [Token("ab"), Token("c"), Token(","), Token(","), Token("ab"), Token("c")]);
  }

  lemma RuleSepListThreeStep5()
    ensures Resume(RuleSepList, "abc,,abc,,abc!!!", AtTerminator, 8, 2, [Token("ab"), Token("c"), Token(","), Token(","), Token("ab"), Token("c")]) == Outcome(true, 16, [Token("ab"), Token("c"), Token(","), Token(","), Token("ab"), Token("c"), Token(","), Token(","), Token("ab"), Token("c"), Token("!!!"), Position], Count(3))
  {
    var s := "abc,,abc,,abc!!!";
    assert s[8..8] == "";
    assert "!!!"[..0] == "";
    Miss("!!!", s, 8, 0, "");
    RuleSepListThreeStep6();
  }

  lemma RuleSepListThreeStep6()
    ensures Resume(RuleSepList, "abc,,abc,,abc!!!", AtSeparator, 8, 2, [Token("ab"), Token("c"), Token(","), Token(","), Token("ab"), Token("c")]) == Outcome(true, 16, [Token("ab"), Token("c"), Token(","), Token(","), Token("ab"), Token("c"), Token(","), Token(","), Token("ab"), Token("c"), Token("!!!"), Position], Count(3))
  {
    var s := "abc,,abc,,abc!!!";
    RuleSepListThreeStep6Part0(s);
    assert s[10..10] == "";
    assert "!!!"[..0] == "";
    Miss("!!!", s, 10, 0, "");
    RuleSepListThreeStep7();
  }

  lemma RuleSepListThreeStep6Part0(s: string)
    requires s == "abc,,abc,,abc!!!"
    ensures StepsF(DoubleComma.steps, s, 8, [Token("ab"), Token("c"), Token(","), Token(","), Token("ab"), Token("c")]) == Outcome(true, 10, [Token("ab"), Token("c"), Token(","), Token(","), Token("ab"), Token("c"), Token(","), Token(",")], NoValue)
  {
    StepsWhole(DoubleComma.steps, s, 8, [Token("ab"), Token("c"), Token(","), Token(","), Token("ab"), Token("c")]);
    assert s[8..9] == ",";
    LitHit(DoubleComma.steps, 0, ",", s, 8, [Token("ab"), Token("c"), Token(","), Token(","), Token("ab"), Token("c")], [Token("ab"), Token("c"), Token(","), Token(","), Token("ab"), Token("c"), Token(",")]);
    assert s[9..10] == ",";
    LitHit(DoubleComma.steps, 1, ",", s, 9, [Token("ab"), Token("c"), Token(","), Token(","), Token("ab"), Token("c"), Token(",")], [Token("ab"), Token("c"), Token(","), Token(","), Token("ab"), Token("c"), Token(","), Token(",")]);
    StepsDone(DoubleComma.steps, s, 10, [Token("ab"), Token("c"), Token(","), Token(","), Token("ab"), Token("c"), Token(","), Token(",")]);
  }

  lemma RuleSepListThreeStep7()
    ensures Resume(RuleSepList, "abc,,abc,,abc!!!", AtItem, 10, 2, [Token("ab"), Token("c"), Token(","), Token(","), Token("ab"), Token("c"), Token(","), Token(",")]) == Outcome(true, 16, [Token("ab"), Token("c"), Token(","), Token(","), Token("ab"), Token("c"), Token(","), Token(","), Token("ab"), Token("c"), Token("!!!"), Position], Count(3))
  {
    var s := "abc,,abc,,abc!!!";
    assert s[10..12] == "ab";
    Hit("ab", s, 10);
    RuleSepListThreeStep7Part0(s);
    RuleSepListThreeStep8();
  }

  lemma RuleSepListThreeStep7Part0(s: string)
    requires s == "abc,,abc,,abc!!!"
    ensures StepsF(RuleItem.steps, s, 10, [Token("ab"), Token("c"), Token(","), Token(","), Token("ab"), Token("c"), Token(","), Token(",")]) == Outcome(true, 13, [Token("ab"), Token("c"), Token(","), Token(","), Token("ab"), Token("c"), Token(","), Token(","), Token("ab"), Token("c")], NoValue)
  {
    StepsWhole(RuleItem.steps, s, 10, [Token("ab"), Token("c"), Token(","), Token(","), Token("ab"), Token("c"), Token(","), Token(",")]);
    assert s[10..12] == "ab";
    LitHit(RuleItem.steps, 0, "ab", s, 10, [Token("ab"), Token("c"), Token(","), Token(","), Token("ab"), Token("c"), Token(","), Token(",")], [Token("ab"), Token("c"), Token(","), Token(","), Token("ab"), Token("c"), Token(","), Token(","), Token("ab")]);
    assert s[12..13] == "c";
    LitHit(RuleItem.steps, 1, "c", s, 12, [Token("ab"), Token("c"), Token(","), Token(","), Token("ab"), Token("c"), Token(","), Token(","), Token("ab")], [Token("ab"), Token("c"), Token(","), Token(","), Token("ab"), Token("c"), Token(","), Token(","), Token("ab"), Token("c")]);
    StepsDone(RuleItem.steps, s, 13, [Token("ab"), Token("c"), Token(","), Token(","), Token("ab"), Token("c"), Token(","), Token(","), Token("ab"), Token("c")]);
  }

  lemma RuleSepListThreeStep8()
    ensures Resume(RuleSepList, "abc,,abc,,abc!!!", AtTerminator, 13, 3, [Token("ab"), Token("c"), Token(","), Token(","), Token("ab"), Token("c"), Token(","), Token(","), Token("ab"), Token("c")]) == Outcome(true, 16, [Token("ab"), Token("c"), Token(","), Token(","), Token("ab"), Token("c"), Token(","), Token(","), Token("ab"), Token("c"), Token("!!!"), Position], Count(3))
  {
    var s := "abc,,abc,,abc!!!";
    assert s[13..16] == "!!!";
    Hit("!!!", s, 13);
    RuleSepListThreeStep8Part0(s);
  }

  lemma RuleSepListThreeStep8Part0(s: string)
    requires s == "abc,,abc,,abc!!!"
    ensures StepsF(TermRule(TestTerm).steps, s, 13, [Token("ab"), Token("c"), Token(","), Token(","), Token("ab"), Token("c"), Token(","), Token(","), Token("ab"), Token("c")]) == Outcome(true, 16, [Token("ab"), Token("c"), Token(","), Token(","), Token("ab"), Token("c"), Token(","), Token(","), Token("ab"), Token("c"), Token("!!!"), Position], NoValue)
  {
    StepsWhole(TermRule(TestTerm).steps, s, 13, [Token("ab"), Token("c"), Token(","), Token(","), Token("ab"), Token("c"), Token(","), Token(","), Token("ab"), Token("c")]);
    assert s[13..16] == "!!!";
    LitHit(TermRule(TestTerm).steps, 0, "!!!", s, 13, [Token("ab"), Token("c"), Token(","), Token(","), Token("ab"), Token("c"), Token(","), Token(","), Token("ab"), Token("c")], [Token("ab"), Token("c"), Token(","), Token(","), Token("ab"), Token("c"), Token(","), Token(","), Token("ab"), Token("c"), Token("!!!")]);
    PosStep(TermRule(TestTerm).steps, 1, s, 16, [Token("ab"), Token("c"), Token(","), Token(","), Token("ab"), Token("c"), Token(","), Token(","), Token("ab"), Token("c"), Token("!!!")], [Token("ab"), Token("c"), Token(","), Token(","), Token("ab"), Token("c"), Token(","), Token(","), Token("ab"), Token("c"), Token("!!!"), Position]);
    StepsDone(TermRule(TestTerm).steps, s, 16, [Token("ab"), Token("c"), Token(","), Token(","), Token("ab"), Token("c"), Token(","), Token(","), Token("ab"), Token("c"), Token("!!!"), Position]);
  }

  lemma RuleSepListThreeVerdict()
    ensures Verify(Outcome(true, 16, [Token("ab"), Token("c"), Token(","), Token(","), Token("ab"), Token("c"), Token(","), Token(","), Token("ab"), Token("c"), Token("!!!"), Position], Count(3))) == TestResult(Success, Count(3), [Token("ab"), Token("c"), Token(","), Token(","), Token("ab"), Token("c"), Token(","), Token(","), Token("ab"), Token("c"), Token("!!!"), Position])
  {
    VerifySuccess(Outcome(true, 16, [Token("ab"), Token("c"), Token(","), Token(","), Token("ab"), Token("c"), Token(","), Token(","), Token("ab"), Token("c"), Token("!!!"), Position], Count(3)));
  }

  /** `.list(rule, sep)` on "abc,,abc,,!!!": a trailing separator is an error. */
  lemma RuleSepListTrailing()
    ensures Verify(ListF(RuleSepList, "abc,,abc,,!!!", 0, [])) == TestResult(RecoveredError, Count(2), [Token("ab"), Token("c"), Token(","), Token(","), Token("ab"), Token("c"), Token(","), Token(","), Error(8, 10, TrailingSeparatorMessage), Token("!!!"), Position])
  {
    RuleSepListTrailingStep0();
    RuleSepListTrailingVerdict();
  }

  lemma RuleSepListTrailingStep0()
    ensures ListF(RuleSepList, "abc,,abc,,!!!", 0, []) == Outcome(true, 13, [Token("ab"), Token("c"), Token(","), Token(","), Token("ab"), Token("c"), Token(","), Token(","), Error(8, 10, TrailingSeparatorMessage), Token("!!!"), Position], Count(2))
  {
    var s := "abc,,abc,,!!!";
    RuleSepListTrailingStep1();
  }

  lemma RuleSepListTrailingStep1()
    ensures Resume(RuleSepList, "abc,,abc,,!!!", AtItem, 0, 0, []) == Outcome(true, 13, [Token("ab"), Token("c"), Token(","), Token(","), Token("ab"), Token("c"), Token(","), Token(","), Error(8, 10, TrailingSeparatorMessage), Token("!!!"), Position], Count(2))
  {
    var s := "abc,,abc,,!!!";
    assert s[0..2] == "ab";
    Hit("ab", s, 0);
    RuleSepListTrailingStep1Part0(s);
    RuleSepListTrailingStep2();
  }

  lemma RuleSepListTrailingStep1Part0(s: string)
    requires s == "abc,,abc,,!!!"
    ensures StepsF(RuleItem.steps, s, 0, []) == Outcome(true, 3, [Token("ab"), Token("c")], NoValue)
  {
    StepsWhole(RuleItem.steps, s, 0, []);
    assert s[0..2] == "ab";
    LitHit(RuleItem.steps, 0, "ab", s, 0, [], [Token("ab")]);
    assert s[2..3] == "c";
    LitHit(RuleItem.steps, 1, "c", s, 2, [Token("ab")], [Token("ab"), Token("c")]);
    StepsDone(RuleItem.steps, s, 3, [Token("ab"), Token("c")]);
  }

  lemma RuleSepListTrailingStep2()
    ensures Resume(RuleSepList, "abc,,abc,,!!!", AtTerminator, 3, 1, [Token("ab"), Token("c")]) == Outcome(true, 13, [Token("ab"), Token("c"), Token(","), Token(","), Token("ab"), Token("c"), Token(","), Token(","), Error(8, 10, TrailingSeparatorMessage), Token("!!!"), Position], Count(2))
  {
    var s := "abc,,abc,,!!!";
    assert s[3..3] == "";
    assert "!!!"[..0] == "";
    Miss("!!!", s, 3, 0, "");
    RuleSepListTrailingStep3();
  }

  lemma RuleSepListTrailingStep3()
    ensures Resume(RuleSepList, "abc,,abc,,!!!", AtSeparator, 3, 1, [Token("ab"), Token("c")]) == Outcome(true, 13, [Token("ab"), Token("c"), Token(","), Token(","), Token("ab"), Token("c"), Token(","), Token(","), Error(8, 10, TrailingSeparatorMessage), Token("!!!"), Position], Count(2))
  {
    var s := "abc,,abc,,!!!";
    RuleSepListTrailingStep3Part0(s);
    assert s[5..5] == "";
    assert "!!!"[..0] == "";
    Miss("!!!", s, 5, 0, "");
    RuleSepListTrailingStep4();
  }

  lemma RuleSepListTrailingStep3Part0(s: string)
    requires s == "abc,,abc,,!!!"
    ensures StepsF(DoubleComma.steps, s, 3, [Token("ab"), Token("c")]) == Outcome(true, 5, [Token("ab"), Token("c"), Token(","), Token(",")], NoValue)
  {
    StepsWhole(DoubleComma.steps, s, 3, [Token("ab"), Token("c")]);
    assert s[3..4] == ",";
    LitHit(DoubleComma.steps, 0, ",", s, 3, [Token("ab"), Token("c")], [Token("ab"), Token("c"), Token(",")]);
    assert s[4..5] == ",";
    LitHit(DoubleComma.steps, 1, ",", s, 4, [Token("ab"), Token("c"), Token(",")], [Token("ab"), Token("c"), Token(","), Token(",")]);
    StepsDone(DoubleComma.steps, s, 5, [Token("ab"), Token("c"), Token(","), Token(",")]);
  }

  lemma RuleSepListTrailingStep4()
    ensures Resume(RuleSepList, "abc,,abc,,!!!", AtItem, 5, 1, [Token("ab"), Token("c"), Token(","), Token(",")]) == Outcome(true, 13, [Token("ab"), Token("c"), Token(","), Token(","), Token("ab"), Token("c"), Token(","), Token(","), Error(8, 10, TrailingSeparatorMessage), Token("!!!"), Position], Count(2))
  {
    var s := "abc,,abc,,!!!";
    assert s[5..7] == "ab";
    Hit("ab", s, 5);
    RuleSepListTrailingStep4Part0(s);
    RuleSepListTrailingStep5();
  }

  lemma RuleSepListTrailingStep4Part0(s: string)
    requires s == "abc,,abc,,!!!"
    ensures StepsF(RuleItem.steps, s, 5, [Token("ab"), Token("c"), Token(","), Token(",")]) == Outcome(true, 8, [Token("ab"), Token("c"), Token(","), Token(","), Token("ab"), Token("c")], NoValue)
  {
    StepsWhole(RuleItem.steps, s, 5, [Token("ab"), Token("c"), Token(","), Token(",")]);
    assert s[5..7] == "ab";
    LitHit(RuleItem.steps, 0, "ab", s, 5, [Token("ab"), Token("c"), Token(","), Token(",")], [Token("ab"), Token("c"), Token(","), Token(","), Token("ab")]);
    assert s[7..8] == "c";
    LitHit(RuleItem.steps, 1, "c", s, 7, [Token("ab"), Token("c"), Token(","), Token(","), Token("ab")], [Token("ab"), Token("c"), Token(","), Token(","), Token("ab"), Token("c")]);
    StepsDone(RuleItem.steps, s, 8, [Token("ab"), Token("c"), Token(","), Token(","), Token("ab"), Token("c")]);
  }

  lemma RuleSepListTrailingStep5()
    ensures Resume(RuleSepList, "abc,,abc,,!!!", AtTerminator, 8, 2, [Token("ab"), Token("c"), Token(","), Token(","), Token("ab"), Token("c")]) == Outcome(true, 13, [Token("ab"), Token("c"), Token(","), Token(","), Token("ab"), Token("c"), Token(","), Token(","), Error(8, 10, TrailingSeparatorMessage), Token("!!!"), Position], Count(2))
  {
    var s := "abc,,abc,,!!!";
    assert s[8..8] == "";
    assert "!!!"[..0] == "";
    Miss("!!!", s, 8, 0, "");
    RuleSepListTrailingStep6();
  }

  lemma RuleSepListTrailingStep6()
    ensures Resume(RuleSepList, "abc,,abc,,!!!", AtSeparator, 8, 2, [Token("ab"), Token("c"), Token(","), Token(","), Token("ab"), Token("c")]) == Outcome(true, 13, [Token("ab"), Token("c"), Token(","), Token(","), Token("ab"), Token("c"), Token(","), Token(","), Error(8, 10, TrailingSeparatorMessage), Token("!!!"), Position], Count(2))
  {
    var s := "abc,,abc,,!!!";
    RuleSepListTrailingStep6Part0(s);
    assert s[10..13] == "!!!";
    Hit("!!!", s, 10);
    RuleSepListTrailingStep6Part1(s);
    SepThenTerm(RuleSepList, s, 8, 2, [Token("ab"), Token("c"), Token(","), Token(","), Token("ab"), Token("c")], Outcome(true, 10, [Token("ab"), Token("c"), Token(","), Token(","), Token("ab"), Token("c"), Token(","), Token(",")], NoValue), [Token("ab"), Token("c"), Token(","), Token(","), Token("ab"), Token("c"), Token(","), Token(",")] + [Error(8, 10, TrailingSeparatorMessage)], Outcome(true, 13, [Token("ab"), Token("c"), Token(","), Token(","), Token("ab"), Token("c"), Token(","), Token(","), Error(8, 10, TrailingSeparatorMessage), Token("!!!"), Position], NoValue));
  }

  lemma RuleSepListTrailingStep6Part0(s: string)
    requires s == "abc,,abc,,!!!"
    ensures StepsF(DoubleComma.steps, s, 8, [Token("ab"), Token("c"), Token(","), Token(","), Token("ab"), Token("c")]) == Outcome(true, 10, [Token("ab"), Token("c"), Token(","), Token(","), Token("ab"), Token("c"), Token(","), Token(",")], NoValue)
  {
    StepsWhole(DoubleComma.steps, s, 8, [Token("ab"), Token("c"), Token(","), Token(","), Token("ab"), Token("c")]);
    assert s[8..9] == ",";
    LitHit(DoubleComma.steps, 0, ",", s, 8, [Token("ab"), Token("c"), Token(","), Token(","), Token("ab"), Token("c")], [Token("ab"), Token("c"), Token(","), Token(","), Token("ab"), Token("c"), Token(",")]);
    assert s[9..10] == ",";
    LitHit(DoubleComma.steps, 1, ",", s, 9, [Token("ab"), Token("c"), Token(","), Token(","), Token("ab"), Token("c"), Token(",")], [Token("ab"), Token("c"), Token(","), Token(","), Token("ab"), Token("c"), Token(","), Token(",")]);
    StepsDone(DoubleComma.steps, s, 10, [Token("ab"), Token("c"), Token(","), Token(","), Token("ab"), Token("c"), Token(","), Token(",")]);
  }

  lemma RuleSepListTrailingStep6Part1(s: string)
    requires s == "abc,,abc,,!!!"
    ensures StepsF(TermRule(TestTerm).steps, s, 10, [Token("ab"), Token("c"), Token(","), Token(","), Token("ab"), Token("c"), Token(","), Token(",")] + [Error(8, 10, TrailingSeparatorMessage)]) == Outcome(true, 13, [Token("ab"), Token("c"), Token(","), Token(","), Token("ab"), Token("c"), Token(","), Token(","), Error(8, 10, TrailingSeparatorMessage), Token("!!!"), Position], NoValue)
  {
    StepsWhole(TermRule(TestTerm).steps, s, 10, [Token("ab"), Token("c"), Token(","), Token(","), Token("ab"), Token("c"), Token(","), Token(",")] + [Error(8, 10, TrailingSeparatorMessage)]);
    assert s[10..13] == "!!!";
    LitHit(TermRule(TestTerm).steps, 0, "!!!", s, 10, [Token("ab"), Token("c"), Token(","), Token(","), Token("ab"), Token("c"), Token(","), Token(",")] + [Error(8, 10, TrailingSeparatorMessage)], [Token("ab"), Token("c"), Token(","), Token(","), Token("ab"), Token("c"), Token(","), Token(","), Error(8, 10, TrailingSeparatorMessage), Token("!!!")]);
    PosStep(TermRule(TestTerm).steps, 1, s, 13, [Token("ab"), Token("c"), Token(","), Token(","), Token("ab"), Token("c"), Token(","), Token(","), Error(8, 10, TrailingSeparatorMessage), Token("!!!")], [Token("ab"), Token("c"), Token(","), Token(","), Token("ab"), Token("c"), Token(","), Token(","), Error(8, 10, TrailingSeparatorMessage), Token("!!!"), Position]);
    StepsDone(TermRule(TestTerm).steps, s, 13, [Token("ab"), Token("c"), Token(","), Token(","), Token("ab"), Token("c"), Token(","), Token(","), Error(8, 10, TrailingSeparatorMessage), Token("!!!"), Position]);
  }

  lemma RuleSepListTrailingVerdict()
    ensures Verify(Outcome(true, 13, [Token("ab"), Token("c"), Token(","), Token(","), Token("ab"), Token("c"), Token(","), Token(","), Error(8, 10, TrailingSeparatorMessage), Token("!!!"), Position], Count(2))) == TestResult(RecoveredError, Count(2), [Token("ab"), Token("c"), Token(","), Token(","), Token("ab"), Token("c"), Token(","), Token(","), Error(8, 10, TrailingSeparatorMessage), Token("!!!"), Position])
  {
    VerifyRecovered(Outcome(true, 13, [Token("ab"), Token("c"), Token(","), Token(","), Token("ab"), Token("c"), Token(","), Token(","), Error(8, 10, TrailingSeparatorMessage), Token("!!!"), Position], Count(2)), 8);
  }

  /** `.list(rule, sep)` on "abcabc!!!": without a branch item, recovery skips to the terminator. */
  lemma RuleSepListNoSep()
    ensures Verify(ListF(RuleSepList, "abcabc!!!", 0, [])) == TestResult(RecoveredError, Count(1), [Token("ab"), Token("c"), ExpectedLiteral(3, ",", 0), Recovery, ErrorToken("a"), ErrorToken("b"), ErrorToken("c"), Finish, Token("!!!"), Position])
  {
    RuleSepListNoSepStep0();
    RuleSepListNoSepVerdict();
  }

  lemma RuleSepListNoSepStep0()
    ensures ListF(RuleSepList, "abcabc!!!", 0, []) == Outcome(true, 9, [Token("ab"), Token("c"), ExpectedLiteral(3, ",", 0), Recovery, ErrorToken("a"), ErrorToken("b"), ErrorToken("c"), Finish, Token("!!!"), Position], Count(1))
  {
    var s := "abcabc!!!";
    RuleSepListNoSepStep1();
  }

  lemma RuleSepListNoSepStep1()
    ensures Resume(RuleSepList, "abcabc!!!", AtItem, 0, 0, []) == Outcome(true, 9, [Token("ab"), Token("c"), ExpectedLiteral(3, ",", 0), Recovery, ErrorToken("a"), ErrorToken("b"), ErrorToken("c"), Finish, Token("!!!"), Position], Count(1))
  {
    var s := "abcabc!!!";
    assert s[0..2] == "ab";
    Hit("ab", s, 0);
    RuleSepListNoSepStep1Part0(s);
    RuleSepListNoSepStep2();
  }

  lemma RuleSepListNoSepStep1Part0(s: string)
    requires s == "abcabc!!!"
    ensures StepsF(RuleItem.steps, s, 0, []) == Outcome(true, 3, [Token("ab"), Token("c")], NoValue)
  {
    StepsWhole(RuleItem.steps, s, 0, []);
    assert s[0..2] == "ab";
    LitHit(RuleItem.steps, 0, "ab", s, 0, [], [Token("ab")]);
    assert s[2..3] == "c";
    LitHit(RuleItem.steps, 1, "c", s, 2, [Token("ab")], [Token("ab"), Token("c")]);
    StepsDone(RuleItem.steps, s, 3, [Token("ab"), Token("c")]);
  }

  lemma RuleSepListNoSepStep2()
    ensures Resume(RuleSepList, "abcabc!!!", AtTerminator, 3, 1, [Token("ab"), Token("c")]) == Outcome(true, 9, [Token("ab"), Token("c"), ExpectedLiteral(3, ",", 0), Recovery, ErrorToken("a"), ErrorToken("b"), ErrorToken("c"), Finish, Token("!!!"), Position], Count(1))
  {
    var s := "abcabc!!!";
    assert s[3..3] == "";
    assert "!!!"[..0] == "";
    Miss("!!!", s, 3, 0, "");
    RuleSepListNoSepStep3();
  }

  lemma RuleSepListNoSepStep3()
    ensures Resume(RuleSepList, "abcabc!!!", AtSeparator, 3, 1, [Token("ab"), Token("c")]) == Outcome(true, 9, [Token("ab"), Token("c"), ExpectedLiteral(3, ",", 0), Recovery, ErrorToken("a"), ErrorToken("b"), ErrorToken("c"), Finish, Token("!!!"), Position], Count(1))
  {
    var s := "abcabc!!!";
    RuleSepListNoSepStep3Part0(s);
    RuleSepListNoSepStep4();
  }

  lemma RuleSepListNoSepStep3Part0(s: string)
    requires s == "abcabc!!!"
    ensures StepsF(DoubleComma.steps, s, 3, [Token("ab"), Token("c")]) == Outcome(false, 3, [Token("ab"), Token("c"), ExpectedLiteral(3, ",", 0)], NoValue)
  {
    StepsWhole(DoubleComma.steps, s, 3, [Token("ab"), Token("c")]);
    assert s[3..3] == "";
    assert ","[..0] == "";
    LitMiss(DoubleComma.steps, 0, ",", s, 3, 0, "", [Token("ab"), Token("c")], [Token("ab"), Token("c"), ExpectedLiteral(3, ",", 0)]);
  }

  lemma RuleSepListNoSepStep4()
    ensures Resume(RuleSepList, "abcabc!!!", AtRecovery, 3, 1, [Token("ab"), Token("c"), ExpectedLiteral(3, ",", 0)]) == Outcome(true, 9, [Token("ab"), Token("c"), ExpectedLiteral(3, ",", 0), Recovery, ErrorToken("a"), ErrorToken("b"), ErrorToken("c"), Finish, Token("!!!"), Position], Count(1))
  {
    var s := "abcabc!!!";
    assert ListStops(RuleSepList) == ["!!!", ","];
    assert s[3..3] == "";
    assert "!!!"[..0] == "";
    Miss("!!!", s, 3, 0, "");
    assert s[3..3] == "";
    assert ","[..0] == "";
    Miss(",", s, 3, 0, "");
    Any2("!!!", ",", s, 3);
    assert s[3..3] == "";
    assert ";"[..0] == "";
    Miss(";", s, 3, 0, "");
    Any1(";", s, 3);
    ResyncNext(ListStops(RuleSepList), RuleSepList.term.limits, s, 3);
    assert s[4..4] == "";
    assert "!!!"[..0] == "";
    Miss("!!!", s, 4, 0, "");
    assert s[4..4] == "";
    assert ","[..0] == "";
    Miss(",", s, 4, 0, "");
    Any2("!!!", ",", s, 4);
    assert s[4..4] == "";
    assert ";"[..0] == "";
    Miss(";", s, 4, 0, "");
    Any1(";", s, 4);
    ResyncNext(ListStops(RuleSepList), RuleSepList.term.limits, s, 4);
    assert s[5..5] == "";
    assert "!!!"[..0] == "";
    Miss("!!!", s, 5, 0, "");
    assert s[5..5] == "";
    assert ","[..0] == "";
    Miss(",", s, 5, 0, "");
    Any2("!!!", ",", s, 5);
    assert s[5..5] == "";
    assert ";"[..0] == "";
    Miss(";", s, 5, 0, "");
    Any1(";", s, 5);
    ResyncNext(ListStops(RuleSepList), RuleSepList.term.limits, s, 5);
    assert s[6..9] == "!!!";
    Hit("!!!", s, 6);
    assert s[6..6] == "";
    assert ","[..0] == "";
    Miss(",", s, 6, 0, "");
    Any2("!!!", ",", s, 6);
    assert s[6..6] == "";
    assert ";"[..0] == "";
    Miss(";", s, 6, 0, "");
    Any1(";", s, 6);
    ResyncHere(ListStops(RuleSepList), RuleSepList.term.limits, s, 6);
    RuleSepListNoSepStep4Part0(s);
    RuleSepListNoSepStep4Part1(s);
  }

  lemma RuleSepListNoSepStep4Part0(s: string)
    requires s == "abcabc!!!"
    ensures Skip(s, 3, 6, [Token("ab"), Token("c"), ExpectedLiteral(3, ",", 0)] + [Recovery]) == [Token("ab"), Token("c"), ExpectedLiteral(3, ",", 0), Recovery, ErrorToken("a"), ErrorToken("b"), ErrorToken("c")]
  {
    SkipStep(s, 3, 6, [Token("ab"), Token("c"), ExpectedLiteral(3, ",", 0)] + [Recovery], [Token("ab"), Token("c"), ExpectedLiteral(3, ",", 0), Recovery, ErrorToken("a")]);
    SkipStep(s, 4, 6, [Token("ab"), Token("c"), ExpectedLiteral(3, ",", 0), Recovery, ErrorToken("a")], [Token("ab"), Token("c"), ExpectedLiteral(3, ",", 0), Recovery, ErrorToken("a"), ErrorToken("b")]);
    SkipStep(s, 5, 6, [Token("ab"), Token("c"), ExpectedLiteral(3, ",", 0), Recovery, ErrorToken("a"), ErrorToken("b")], [Token("ab"), Token("c"), ExpectedLiteral(3, ",", 0), Recovery, ErrorToken("a"), ErrorToken("b"), ErrorToken("c")]);
    SkipDone(s, 6, [Token("ab"), Token("c"), ExpectedLiteral(3, ",", 0), Recovery, ErrorToken("a"), ErrorToken("b"), ErrorToken("c")]);
  }

  lemma RuleSepListNoSepStep4Part1(s: string)
    requires s == "abcabc!!!"
    ensures StepsF(TermRule(TestTerm).steps, s, 6, [Token("ab"), Token("c"), ExpectedLiteral(3, ",", 0), Recovery, ErrorToken("a"), ErrorToken("b"), ErrorToken("c")] + [Finish]) == Outcome(true, 9, [Token("ab"), Token("c"), ExpectedLiteral(3, ",", 0), Recovery, ErrorToken("a"), ErrorToken("b"), ErrorToken("c"), Finish, Token("!!!"), Position], NoValue)
  {
    StepsWhole(TermRule(TestTerm).steps, s, 6, [Token("ab"), Token("c"), ExpectedLiteral(3, ",", 0), Recovery, ErrorToken("a"), ErrorToken("b"), ErrorToken("c")] + [Finish]);
    assert s[6..9] == "!!!";
    LitHit(TermRule(TestTerm).steps, 0, "!!!", s, 6, [Token("ab"), Token("c"), ExpectedLiteral(3, ",", 0), Recovery, ErrorToken("a"), ErrorToken("b"), ErrorToken("c")] + [Finish], [Token("ab"), Token("c"), ExpectedLiteral(3, ",", 0), Recovery, ErrorToken("a"), ErrorToken("b"), ErrorToken("c"), Finish, Token("!!!")]);
    PosStep(TermRule(TestTerm).steps, 1, s, 9, [Token("ab"), Token("c"), ExpectedLiteral(3, ",", 0), Recovery, ErrorToken("a"), ErrorToken("b"), ErrorToken("c"), Finish, Token("!!!")], [Token("ab"), Token("c"), ExpectedLiteral(3, ",", 0), Recovery, ErrorToken("a"), ErrorToken("b"), ErrorToken("c"), Finish, Token("!!!"), Position]);
    StepsDone(TermRule(TestTerm).steps, s, 9, [Token("ab"), Token("c"), ExpectedLiteral(3, ",", 0), Recovery, ErrorToken("a"), ErrorToken("b"), ErrorToken("c"), Finish, Token("!!!"), Position]);
  }

  lemma RuleSepListNoSepVerdict()
    ensures Verify(Outcome(true, 9, [Token("ab"), Token("c"), ExpectedLiteral(3, ",", 0), Recovery, ErrorToken("a"), ErrorToken("b"), ErrorToken("c"), Finish, Token("!!!"), Position], Count(1))) == TestResult(RecoveredError, Count(1), [Token("ab"), Token("c"), ExpectedLiteral(3, ",", 0), Recovery, ErrorToken("a"), ErrorToken("b"), ErrorToken("c"), Finish, Token("!!!"), Position])
  {
    VerifyRecovered(Outcome(true, 9, [Token("ab"), Token("c"), ExpectedLiteral(3, ",", 0), Recovery, ErrorToken("a"), ErrorToken("b"), ErrorToken("c"), Finish, Token("!!!"), Position], Count(1)), 2);
  }

  /** `.list(rule, sep)` on "abcab!!!". */
  lemma RuleSepListNoSepPartialItem()
    ensures Verify(ListF(RuleSepList, "abcab!!!", 0, [])) == TestResult(RecoveredError, Count(1), [Token("ab"), Token("c"), ExpectedLiteral(3, ",", 0), Recovery, ErrorToken("a"), ErrorToken("b"), Finish, Token("!!!"), Position])
  {
    RuleSepListNoSepPartialItemStep0();
    RuleSepListNoSepPartialItemVerdict();
  }

  lemma RuleSepListNoSepPartialItemStep0()
    ensures ListF(RuleSepList, "abcab!!!", 0, []) == Outcome(true, 8, [Token("ab"), Token("c"), ExpectedLiteral(3, ",", 0), Recovery, ErrorToken("a"), ErrorToken("b"), Finish, Token("!!!"), Position], Count(1))
  {
    var s := "abcab!!!";
    RuleSepListNoSepPartialItemStep1();
  }

  lemma RuleSepListNoSepPartialItemStep1()
    ensures Resume(RuleSepList, "abcab!!!", AtItem, 0, 0, []) == Outcome(true, 8, [Token("ab"), Token("c"), ExpectedLiteral(3, ",", 0), Recovery, ErrorToken("a"), ErrorToken("b"), Finish, Token("!!!"), Position], Count(1))
  {
    var s := "abcab!!!";
    assert s[0..2] == "ab";
    Hit("ab", s, 0);
    RuleSepListNoSepPartialItemStep1Part0(s);
    RuleSepListNoSepPartialItemStep2();
  }

  lemma RuleSepListNoSepPartialItemStep1Part0(s: string)
    requires s == "abcab!!!"
    ensures StepsF(RuleItem.steps, s, 0, []) == Outcome(true, 3, [Token("ab"), Token("c")], NoValue)
  {
    StepsWhole(RuleItem.steps, s, 0, []);
    assert s[0..2] == "ab";
    LitHit(RuleItem.steps, 0, "ab", s, 0, [], [Token("ab")]);
    assert s[2..3] == "c";
    LitHit(RuleItem.steps, 1, "c", s, 2, [Token("ab")], [Token("ab"), Token("c")]);
    StepsDone(RuleItem.steps, s, 3, [Token("ab"), Token("c")]);
  }

  lemma RuleSepListNoSepPartialItemStep2()
    ensures Resume(RuleSepList, "abcab!!!", AtTerminator, 3, 1, [Token("ab"), Token("c")]) == Outcome(true, 8, [Token("ab"), Token("c"), ExpectedLiteral(3, ",", 0), Recovery, ErrorToken("a"), ErrorToken("b"), Finish, Token("!!!"), Position], Count(1))
  {
    var s := "abcab!!!";
    assert s[3..3] == "";
    assert "!!!"[..0] == "";
    Miss("!!!", s, 3, 0, "");
    RuleSepListNoSepPartialItemStep3();
  }

  lemma RuleSepListNoSepPartialItemStep3()
    ensures Resume(RuleSepList, "abcab!!!", AtSeparator, 3, 1, [Token("ab"), Token("c")]) == Outcome(true, 8, [Token("ab"), Token("c"), ExpectedLiteral(3, ",", 0), Recovery, ErrorToken("a"), ErrorToken("b"), Finish, Token("!!!"), Position], Count(1))
  {
    var s := "abcab!!!";
    RuleSepListNoSepPartialItemStep3Part0(s);
    RuleSepListNoSepPartialItemStep4();
  }

  lemma RuleSepListNoSepPartialItemStep3Part0(s: string)
    requires s == "abcab!!!"
    ensures StepsF(DoubleComma.steps, s, 3, [Token("ab"), Token("c")]) == Outcome(false, 3, [Token("ab"), Token("c"), ExpectedLiteral(3, ",", 0)], NoValue)
  {
    StepsWhole(DoubleComma.steps, s, 3, [Token("ab"), Token("c")]);
    assert s[3..3] == "";
    assert ","[..0] == "";
    LitMiss(DoubleComma.steps, 0, ",", s, 3, 0, "", [Token("ab"), Token("c")], [Token("ab"), Token("c"), ExpectedLiteral(3, ",", 0)]);
  }

  lemma RuleSepListNoSepPartialItemStep4()
    ensures Resume(RuleSepList, "abcab!!!", AtRecovery, 3, 1, [Token("ab"), Token("c"), ExpectedLiteral(3, ",", 0)]) == Outcome(true, 8, [Token("ab"), Token("c"), ExpectedLiteral(3, ",", 0), Recovery, ErrorToken("a"), ErrorToken("b"), Finish, Token("!!!"), Position], Count(1))
  {
    var s := "abcab!!!";
    assert ListStops(RuleSepList) == ["!!!", ","];
    assert s[3..3] == "";
    assert "!!!"[..0] == "";
    Miss("!!!", s, 3, 0, "");
    assert s[3..3] == "";
    assert ","[..0] == "";
    Miss(",", s, 3, 0, "");
    Any2("!!!", ",", s, 3);
    assert s[3..3] == "";
    assert ";"[..0] == "";
    Miss(";", s, 3, 0, "");
    Any1(";", s, 3);
    ResyncNext(ListStops(RuleSepList), RuleSepList.term.limits, s, 3);
    assert s[4..4] == "";
    assert "!!!"[..0] == "";
    Miss("!!!", s, 4, 0, "");
    assert s[4..4] == "";
    assert ","[..0] == "";
    Miss(",", s, 4, 0, "");
    Any2("!!!", ",", s, 4);
    assert s[4..4] == "";
    assert ";"[..0] == "";
    Miss(";", s, 4, 0, "");
    Any1(";", s, 4);
    ResyncNext(ListStops(RuleSepList), RuleSepList.term.limits, s, 4);
    assert s[5..8] == "!!!";
    Hit("!!!", s, 5);
    assert s[5..5] == "";
    assert ","[..0] == "";
    Miss(",", s, 5, 0, "");
    Any2("!!!", ",", s, 5);
    assert s[5..5] == "";
    assert ";"[..0] == "";
    Miss(";", s, 5, 0, "");
    Any1(";", s, 5);
    ResyncHere(ListStops(RuleSepList), RuleSepList.term.limits, s, 5);
    RuleSepListNoSepPartialItemStep4Part0(s);
    RuleSepListNoSepPartialItemStep4Part1(s);
  }

  lemma RuleSepListNoSepPartialItemStep4Part0(s: string)
    requires s == "abcab!!!"
    ensures Skip(s, 3, 5, [Token("ab"), Token("c"), ExpectedLiteral(3, ",", 0)] + [Recovery]) == [Token("ab"), Token("c"), ExpectedLiteral(3, ",", 0), Recovery, ErrorToken("a"), ErrorToken("b")]
  {
    SkipStep(s, 3, 5, [Token("ab"), Token("c"), ExpectedLiteral(3, ",", 0)] + [Recovery], [Token("ab"), Token("c"), ExpectedLiteral(3, ",", 0), Recovery, ErrorToken("a")]);
    SkipStep(s, 4, 5, [Token("ab"), Token("c"), ExpectedLiteral(3, ",", 0), Recovery, ErrorToken("a")], [Token("ab"), Token("c"), ExpectedLiteral(3, ",", 0), Recovery, ErrorToken("a"), ErrorToken("b")]);
    SkipDone(s, 5, [Token("ab"), Token("c"), ExpectedLiteral(3, ",", 0), Recovery, ErrorToken("a"), ErrorToken("b")]);
  }

  lemma RuleSepListNoSepPartialItemStep4Part1(s: string)
    requires s == "abcab!!!"
    ensures StepsF(TermRule(TestTerm).steps, s, 5, [Token("ab"), Token("c"), ExpectedLiteral(3, ",", 0), Recovery, ErrorToken("a"), ErrorToken("b")] + [Finish]) == Outcome(true, 8, [Token("ab"), Token("c"), ExpectedLiteral(3, ",", 0), Recovery, ErrorToken("a"), ErrorToken("b"), Finish, Token("!!!"), Position], NoValue)
  {
    StepsWhole(TermRule(TestTerm).steps, s, 5, [Token("ab"), Token("c"), ExpectedLiteral(3, ",", 0), Recovery, ErrorToken("a"), ErrorToken("b")] + [Finish]);
    assert s[5..8] == "!!!";
    LitHit(TermRule(TestTerm).steps, 0, "!!!", s, 5, [Token("ab"), Token("c"), ExpectedLiteral(3, ",", 0), Recovery, ErrorToken("a"), ErrorToken("b")] + [Finish], [Token("ab"), Token("c"), ExpectedLiteral(3, ",", 0), Recovery, ErrorToken("a"), ErrorToken("b"), Finish, Token("!!!")]);
    PosStep(TermRule(TestTerm).steps, 1, s, 8, [Token("ab"), Token("c"), ExpectedLiteral(3, ",", 0), Recovery, ErrorToken("a"), ErrorToken("b"), Finish, Token("!!!")], [Token("ab"), Token("c"), ExpectedLiteral(3, ",", 0), Recovery, ErrorToken("a"), ErrorToken("b"), Finish, Token("!!!"), Position]);
    StepsDone(TermRule(TestTerm).steps, s, 8, [Token("ab"), Token("c"), ExpectedLiteral(3, ",", 0), Recovery, ErrorToken("a"), ErrorToken("b"), Finish, Token("!!!"), Position]);
  }

  lemma RuleSepListNoSepPartialItemVerdict()
    ensures Verify(Outcome(true, 8, [Token("ab"), Token("c"), ExpectedLiteral(3, ",", 0), Recovery, ErrorToken("a"), ErrorToken("b"), Finish, Token("!!!"), Position], Count(1))) == TestResult(RecoveredError, Count(1), [Token("ab"), Token("c"), ExpectedLiteral(3, ",", 0), Recovery, ErrorToken("a"), ErrorToken("b"), Finish, Token("!!!"), Position])
  {
    VerifyRecovered(Outcome(true, 8, [Token("ab"), Token("c"), ExpectedLiteral(3, ",", 0), Recovery, ErrorToken("a"), ErrorToken("b"), Finish, Token("!!!"), Position], Count(1)), 2);
  }

  /** `.list(rule, sep)` on "abcd!!!". */
  lemma RuleSepListNoSepNoItem()
    ensures Verify(ListF(RuleSepList, "abcd!!!", 0, [])) == TestResult(RecoveredError, Count(1), [Token("ab"), Token("c"), ExpectedLiteral(3, ",", 0), Recovery, ErrorToken("d"), Finish, Token("!!!"), Position])
  {
    RuleSepListNoSepNoItemStep0();
    RuleSepListNoSepNoItemVerdict();
  }

  lemma RuleSepListNoSepNoItemStep0()
    ensures ListF(RuleSepList, "abcd!!!", 0, []) == Outcome(true, 7, [Token("ab"), Token("c"), ExpectedLiteral(3, ",", 0), Recovery, ErrorToken("d"), Finish, Token("!!!"), Position], Count(1))
  {
    var s := "abcd!!!";
    RuleSepListNoSepNoItemStep1();
  }

  lemma RuleSepListNoSepNoItemStep1()
    ensures Resume(RuleSepList, "abcd!!!", AtItem, 0, 0, []) == Outcome(true, 7, [Token("ab"), Token("c"), ExpectedLiteral(3, ",", 0), Recovery, ErrorToken("d"), Finish, Token("!!!"), Position], Count(1))
  {
    var s := "abcd!!!";
    assert s[0..2] == "ab";
    Hit("ab", s, 0);
    RuleSepListNoSepNoItemStep1Part0(s);
    RuleSepListNoSepNoItemStep2();
  }

  lemma RuleSepListNoSepNoItemStep1Part0(s: string)
    requires s == "abcd!!!"
    ensures StepsF(RuleItem.steps, s, 0, []) == Outcome(true, 3, [Token("ab"), Token("c")], NoValue)
  {
    StepsWhole(RuleItem.steps, s, 0, []);
    assert s[0..2] == "ab";
    LitHit(RuleItem.steps, 0, "ab", s, 0, [], [Token("ab")]);
    assert s[2..3] == "c";
    LitHit(RuleItem.steps, 1, "c", s, 2, [Token("ab")], [Token("ab"), Token("c")]);
    StepsDone(RuleItem.steps, s, 3, [Token("ab"), Token("c")]);
  }

  lemma RuleSepListNoSepNoItemStep2()
    ensures Resume(RuleSepList, "abcd!!!", AtTerminator, 3, 1, [Token("ab"), Token("c")]) == Outcome(true, 7, [Token("ab"), Token("c"), ExpectedLiteral(3, ",", 0), Recovery, ErrorToken("d"), Finish, Token("!!!"), Position], Count(1))
  {
    var s := "abcd!!!";
    assert s[3..3] == "";
    assert "!!!"[..0] == "";
    Miss("!!!", s, 3, 0, "");
    RuleSepListNoSepNoItemStep3();
  }

  lemma RuleSepListNoSepNoItemStep3()
    ensures Resume(RuleSepList, "abcd!!!", AtSeparator, 3, 1, [Token("ab"), Token("c")]) == Outcome(true, 7, [Token("ab"), Token("c"), ExpectedLiteral(3, ",", 0), Recovery, ErrorToken("d"), Finish, Token("!!!"), Position], Count(1))
  {
    var s := "abcd!!!";
    RuleSepListNoSepNoItemStep3Part0(s);
    RuleSepListNoSepNoItemStep4();
  }

  lemma RuleSepListNoSepNoItemStep3Part0(s: string)
    requires s == "abcd!!!"
    ensures StepsF(DoubleComma.steps, s, 3, [Token("ab"), Token("c")]) == Outcome(false, 3, [Token("ab"), Token("c"), ExpectedLiteral(3, ",", 0)], NoValue)
  {
    StepsWhole(DoubleComma.steps, s, 3, [Token("ab"), Token("c")]);
    assert s[3..3] == "";
    assert ","[..0] == "";
    LitMiss(DoubleComma.steps, 0, ",", s, 3, 0, "", [Token("ab"), Token("c")], [Token("ab"), Token("c"), ExpectedLiteral(3, ",", 0)]);
  }

  lemma RuleSepListNoSepNoItemStep4()
    ensures Resume(RuleSepList, "abcd!!!", AtRecovery, 3, 1, [Token("ab"), Token("c"), ExpectedLiteral(3, ",", 0)]) == Outcome(true, 7, [Token("ab"), Token("c"), ExpectedLiteral(3, ",", 0), Recovery, ErrorToken("d"), Finish, Token("!!!"), Position], Count(1))
  {
    var s := "abcd!!!";
    assert ListStops(RuleSepList) == ["!!!", ","];
    assert s[3..3] == "";
    assert "!!!"[..0] == "";
    Miss("!!!", s, 3, 0, "");
    assert s[3..3] == "";
    assert ","[..0] == "";
    Miss(",", s, 3, 0, "");
    Any2("!!!", ",", s, 3);
    assert s[3..3] == "";
    assert ";"[..0] == "";
    Miss(";", s, 3, 0, "");
    Any1(";", s, 3);
    ResyncNext(ListStops(RuleSepList), RuleSepList.term.limits, s, 3);
    assert s[4..7] == "!!!";
    Hit("!!!", s, 4);
    assert s[4..4] == "";
    assert ","[..0] == "";
    Miss(",", s, 4, 0, "");
    Any2("!!!", ",", s, 4);
    assert s[4..4] == "";
    assert ";"[..0] == "";
    Miss(";", s, 4, 0, "");
    Any1(";", s, 4);
    ResyncHere(ListStops(RuleSepList), RuleSepList.term.limits, s, 4);
    RuleSepListNoSepNoItemStep4Part0(s);
    RuleSepListNoSepNoItemStep4Part1(s);
  }

  lemma RuleSepListNoSepNoItemStep4Part0(s: string)
    requires s == "abcd!!!"
    ensures Skip(s, 3, 4, [Token("ab"), Token("c"), ExpectedLiteral(3, ",", 0)] + [Recovery]) == [Token("ab"), Token("c"), ExpectedLiteral(3, ",", 0), Recovery, ErrorToken("d")]
  {
    SkipStep(s, 3, 4, [Token("ab"), Token("c"), ExpectedLiteral(3, ",", 0)] + [Recovery], [Token("ab"), Token("c"), ExpectedLiteral(3, ",", 0), Recovery, ErrorToken("d")]);
    SkipDone(s, 4, [Token("ab"), Token("c"), ExpectedLiteral(3, ",", 0), Recovery, ErrorToken("d")]);
  }

  lemma RuleSepListNoSepNoItemStep4Part1(s: string)
    requires s == "abcd!!!"
    ensures StepsF(TermRule(TestTerm).steps, s, 4, [Token("ab"), Token("c"), ExpectedLiteral(3, ",", 0), Recovery, ErrorToken("d")] + [Finish]) == Outcome(true, 7, [Token("ab"), Token("c"), ExpectedLiteral(3, ",", 0), Recovery, ErrorToken("d"), Finish, Token("!!!"), Position], NoValue)
  {
    StepsWhole(TermRule(TestTerm).steps, s, 4, [Token("ab"), Token("c"), ExpectedLiteral(3, ",", 0), Recovery, ErrorToken("d")] + [Finish]);
    assert s[4..7] == "!!!";
    LitHit(TermRule(TestTerm).steps, 0, "!!!", s, 4, [Token("ab"), Token("c"), ExpectedLiteral(3, ",", 0), Recovery, ErrorToken("d")] + [Finish], [Token("ab"), Token("c"), ExpectedLiteral(3, ",", 0), Recovery, ErrorToken("d"), Finish, Token("!!!")]);
    PosStep(TermRule(TestTerm).steps, 1, s, 7, [Token("ab"), Token("c"), ExpectedLiteral(3, ",", 0), Recovery, ErrorToken("d"), Finish, Token("!!!")], [Token("ab"), Token("c"), ExpectedLiteral(3, ",", 0), Recovery, ErrorToken("d"), Finish, Token("!!!"), Position]);
    StepsDone(TermRule(TestTerm).steps, s, 7, [Token("ab"), Token("c"), ExpectedLiteral(3, ",", 0), Recovery, ErrorToken("d"), Finish, Token("!!!"), Position]);
  }

  lemma RuleSepListNoSepNoItemVerdict()
    ensures Verify(Outcome(true, 7, [Token("ab"), Token("c"), ExpectedLiteral(3, ",", 0), Recovery, ErrorToken("d"), Finish, Token("!!!"), Position], Count(1))) == TestResult(RecoveredError, Count(1), [Token("ab"), Token("c"), ExpectedLiteral(3, ",", 0), Recovery, ErrorToken("d"), Finish, Token("!!!"), Position])
  {
    VerifyRecovered(Outcome(true, 7, [Token("ab"), Token("c"), ExpectedLiteral(3, ",", 0), Recovery, ErrorToken("d"), Finish, Token("!!!"), Position], Count(1)), 2);
  }

  /** `.list(rule, sep)` on "abc,abc!!!". */
  lemma RuleSepListPartialSep()
    ensures Verify(ListF(RuleSepList, "abc,abc!!!", 0, [])) == TestResult(RecoveredError, Count(1), [Token("ab"), Token("c"), Token(","), ExpectedLiteral(4, ",", 0), Recovery, ErrorToken("a"), ErrorToken("b"), ErrorToken("c"), Finish, Token("!!!"), Position])
  {
    RuleSepListPartialSepStep0();
    RuleSepListPartialSepVerdict();
  }

  lemma RuleSepListPartialSepStep0()
    ensures ListF(RuleSepList, "abc,abc!!!", 0, []) == Outcome(true, 10, [Token("ab"), Token("c"), Token(","), ExpectedLiteral(4, ",", 0), Recovery, ErrorToken("a"), ErrorToken("b"), ErrorToken("c"), Finish, Token("!!!"), Position], Count(1))
  {
    var s := "abc,abc!!!";
    RuleSepListPartialSepStep1();
  }

  lemma RuleSepListPartialSepStep1()
    ensures Resume(RuleSepList, "abc,abc!!!", AtItem, 0, 0, []) == Outcome(true, 10, [Token("ab"), Token("c"), Token(","), ExpectedLiteral(4, ",", 0), Recovery, ErrorToken("a"), ErrorToken("b"), ErrorToken("c"), Finish, Token("!!!"), Position], Count(1))
  {
    var s := "abc,abc!!!";
    assert s[0..2] == "ab";
    Hit("ab", s, 0);
    RuleSepListPartialSepStep1Part0(s);
    RuleSepListPartialSepStep2();
  }

  lemma RuleSepListPartialSepStep1Part0(s: string)
    requires s == "abc,abc!!!"
    ensures StepsF(RuleItem.steps, s, 0, []) == Outcome(true, 3, [Token("ab"), Token("c")], NoValue)
  {
    StepsWhole(RuleItem.steps, s, 0, []);
    assert s[0..2] == "ab";
    LitHit(RuleItem.steps, 0, "ab", s, 0, [], [Token("ab")]);
    assert s[2..3] == "c";
    LitHit(RuleItem.steps, 1, "c", s, 2, [Token("ab")], [Token("ab"), Token("c")]);
    StepsDone(RuleItem.steps, s, 3, [Token("ab"), Token("c")]);
  }

  lemma RuleSepListPartialSepStep2()
    ensures Resume(RuleSepList, "abc,abc!!!", AtTerminator, 3, 1, [Token("ab"), Token("c")]) == Outcome(true, 10, [Token("ab"), Token("c"), Token(","), ExpectedLiteral(4, ",", 0), Recovery, ErrorToken("a"), ErrorToken("b"), ErrorToken("c"), Finish, Token("!!!"), Position], Count(1))
  {
    var s := "abc,abc!!!";
    assert s[3..3] == "";
    assert "!!!"[..0] == "";
    Miss("!!!", s, 3, 0, "");
    RuleSepListPartialSepStep3();
  }

  lemma RuleSepListPartialSepStep3()
    ensures Resume(RuleSepList, "abc,abc!!!", AtSeparator, 3, 1, [Token("ab"), Token("c")]) == Outcome(true, 10, [Token("ab"), Token("c"), Token(","), ExpectedLiteral(4, ",", 0), Recovery, ErrorToken("a"), ErrorToken("b"), ErrorToken("c"), Finish, Token("!!!"), Position], Count(1))
  {
    var s := "abc,abc!!!";
    RuleSepListPartialSepStep3Part0(s);
    RuleSepListPartialSepStep4();
  }

  lemma RuleSepListPartialSepStep3Part0(s: string)
    requires s == "abc,abc!!!"
    ensures StepsF(DoubleComma.steps, s, 3, [Token("ab"), Token("c")]) == Outcome(false, 4, [Token("ab"), Token("c"), Token(","), ExpectedLiteral(4, ",", 0)], NoValue)
  {
    StepsWhole(DoubleComma.steps, s, 3, [Token("ab"), Token("c")]);
    assert s[3..4] == ",";
    LitHit(DoubleComma.steps, 0, ",", s, 3, [Token("ab"), Token("c")], [Token("ab"), Token("c"), Token(",")]);
    assert s[4..4] == "";
    assert ","[..0] == "";
    LitMiss(DoubleComma.steps, 1, ",", s, 4, 0, "", [Token("ab"), Token("c"), Token(",")], [Token("ab"), Token("c"), Token(","), ExpectedLiteral(4, ",", 0)]);
  }

  lemma RuleSepListPartialSepStep4()
    ensures Resume(RuleSepList, "abc,abc!!!", AtRecovery, 4, 1, [Token("ab"), Token("c"), Token(","), ExpectedLiteral(4, ",", 0)]) == Outcome(true, 10, [Token("ab"), Token("c"), Token(","), ExpectedLiteral(4, ",", 0), Recovery, ErrorToken("a"), ErrorToken("b"), ErrorToken("c"), Finish, Token("!!!"), Position], Count(1))
  {
    var s := "abc,abc!!!";
    assert ListStops(RuleSepList) == ["!!!", ","];
    assert s[4..4] == "";
    assert "!!!"[..0] == "";
    Miss("!!!", s, 4, 0, "");
    assert s[4..4] == "";
    assert ","[..0] == "";
    Miss(",", s, 4, 0, "");
    Any2("!!!", ",", s, 4);
    assert s[4..4] == "";
    assert ";"[..0] == "";
    Miss(";", s, 4, 0, "");
    Any1(";", s, 4);
    ResyncNext(ListStops(RuleSepList), RuleSepList.term.limits, s, 4);
    assert s[5..5] == "";
    assert "!!!"[..0] == "";
    Miss("!!!", s, 5, 0, "");
    assert s[5..5] == "";
    assert ","[..0] == "";
    Miss(",", s, 5, 0, "");
    Any2("!!!", ",", s, 5);
    assert s[5..5] == "";
    assert ";"[..0] == "";
    Miss(";", s, 5, 0, "");
    Any1(";", s, 5);
    ResyncNext(ListStops(RuleSepList), RuleSepList.term.limits, s, 5);
    assert s[6..6] == "";
    assert "!!!"[..0] == "";
    Miss("!!!", s, 6, 0, "");
    assert s[6..6] == "";
    assert ","[..0] == "";
    Miss(",", s, 6, 0, "");
    Any2("!!!", ",", s, 6);
    assert s[6..6] == "";
    assert ";"[..0] == "";
    Miss(";", s, 6, 0, "");
    Any1(";", s, 6);
    ResyncNext(ListStops(RuleSepList), RuleSepList.term.limits, s, 6);
    assert s[7..10] == "!!!";
    Hit("!!!", s, 7);
    assert s[7..7] == "";
    assert ","[..0] == "";
    Miss(",", s, 7, 0, "");
    Any2("!!!", ",", s, 7);
    assert s[7..7] == "";
    assert ";"[..0] == "";
    Miss(";", s, 7, 0, "");
    Any1(";", s, 7);
    ResyncHere(ListStops(RuleSepList), RuleSepList.term.limits, s, 7);
    RuleSepListPartialSepStep4Part0(s);
    RuleSepListPartialSepStep4Part1(s);
  }

  lemma RuleSepListPartialSepStep4Part0(s: string)
    requires s == "abc,abc!!!"
    ensures Skip(s, 4, 7, [Token("ab"), Token("c"), Token(","), ExpectedLiteral(4, ",", 0)] + [Recovery]) == [Token("ab"), Token("c"), Token(","), ExpectedLiteral(4, ",", 0), Recovery, ErrorToken("a"), ErrorToken("b"), ErrorToken("c")]
  {
    SkipStep(s, 4, 7, [Token("ab"), Token("c"), Token(","), ExpectedLiteral(4, ",", 0)] + [Recovery], [Token("ab"), Token("c"), Token(","), ExpectedLiteral(4, ",", 0), Recovery, ErrorToken("a")]);
    SkipStep(s, 5, 7, [Token("ab"), Token("c"), Token(","), ExpectedLiteral(4, ",", 0), Recovery, ErrorToken("a")], [Token("ab"), Token("c"), Token(","), ExpectedLiteral(4, ",", 0), Recovery, ErrorToken("a"), ErrorToken("b")]);
    SkipStep(s, 6, 7, [Token("ab"), Token("c"), Token(","), ExpectedLiteral(4, ",", 0), Recovery, ErrorToken("a"), ErrorToken("b")], [Token("ab"), Token("c"), Token(","), ExpectedLiteral(4, ",", 0), Recovery, ErrorToken("a"), ErrorToken("b"), ErrorToken("c")]);
    SkipDone(s, 7, [Token("ab"), Token("c"), Token(","), ExpectedLiteral(4, ",", 0), Recovery, ErrorToken("a"), ErrorToken("b"), ErrorToken("c")]);
  }

  lemma RuleSepListPartialSepStep4Part1(s: string)
    requires s == "abc,abc!!!"
    ensures StepsF(TermRule(TestTerm).steps, s, 7, [Token("ab"), Token("c"), Token(","), ExpectedLiteral(4, ",", 0), Recovery, ErrorToken("a"), ErrorToken("b"), ErrorToken("c")] + [Finish]) == Outcome(true, 10, [Token("ab"), Token("c"), Token(","), ExpectedLiteral(4, ",", 0), Recovery, ErrorToken("a"), ErrorToken("b"), ErrorToken("c"), Finish, Token("!!!"), Position], NoValue)
  {
    StepsWhole(TermRule(TestTerm).steps, s, 7, [Token("ab"), Token("c"), Token(","), ExpectedLiteral(4, ",", 0), Recovery, ErrorToken("a"), ErrorToken("b"), ErrorToken("c")] + [Finish]);
    assert s[7..10] == "!!!";
    LitHit(TermRule(TestTerm).steps, 0, "!!!", s, 7, [Token("ab"), Token("c"), Token(","), ExpectedLiteral(4, ",", 0), Recovery, ErrorToken("a"), ErrorToken("b"), ErrorToken("c")] + [Finish], [Token("ab"), Token("c"), Token(","), ExpectedLiteral(4, ",", 0), Recovery, ErrorToken("a"), ErrorToken("b"), ErrorToken("c"), Finish, Token("!!!")]);
    PosStep(TermRule(TestTerm).steps, 1, s, 10, [Token("ab"), Token("c"), Token(","), ExpectedLiteral(4, ",", 0), Recovery, ErrorToken("a"), ErrorToken("b"), ErrorToken("c"), Finish, Token("!!!")], [Token("ab"), Token("c"), Token(","), ExpectedLiteral(4, ",", 0), Recovery, ErrorToken("a"), ErrorToken("b"), ErrorToken("c"), Finish, Token("!!!"), Position]);
    StepsDone(TermRule(TestTerm).steps, s, 10, [Token("ab"), Token("c"), Token(","), ExpectedLiteral(4, ",", 0), Recovery, ErrorToken("a"), ErrorToken("b"), ErrorToken("c"), Finish, Token("!!!"), Position]);
  }

  lemma RuleSepListPartialSepVerdict()
    ensures Verify(Outcome(true, 10, [Token("ab"), Token("c"), Token(","), ExpectedLiteral(4, ",", 0), Recovery, ErrorToken("a"), ErrorToken("b"), ErrorToken("c"), Finish, Token("!!!"), Position], Count(1))) == TestResult(RecoveredError, Count(1), [Token("ab"), Token("c"), Token(","), ExpectedLiteral(4, ",", 0), Recovery, ErrorToken("a"), ErrorToken("b"), ErrorToken("c"), Finish, Token("!!!"), Position])
  {
    VerifyRecovered(Outcome(true, 10, [Token("ab"), Token("c"), Token(","), ExpectedLiteral(4, ",", 0), Recovery, ErrorToken("a"), ErrorToken("b"), ErrorToken("c"), Finish, Token("!!!"), Position], Count(1)), 3);
  }

  /** `.list(rule, sep)` on "abc,,a,,abc!!!": recovery stops at the separator. */
  lemma RuleSepListRecoverSep()
    ensures Verify(ListF(RuleSepList, "abc,,a,,abc!!!", 0, [])) == TestResult(RecoveredError, Count(2), [Token("ab"), Token("c"), Token(","), Token(","), ExpectedLiteral(5, "ab", 1), ErrorToken("a"), Recovery, Finish, Token(","), Token(","), Token("ab"), Token("c"), Token("!!!"), Position])
  {
    RuleSepListRecoverSepStep0();
    RuleSepListRecoverSepVerdict();
  }

  lemma RuleSepListRecoverSepStep0()
    ensures ListF(RuleSepList, "abc,,a,,abc!!!", 0, []) == Outcome(true, 14, [Token("ab"), Token("c"), Token(","), Token(","), ExpectedLiteral(5, "ab", 1), ErrorToken("a"), Recovery, Finish, Token(","), Token(","), Token("ab"), Token("c"), Token("!!!"), Position], Count(2))
  {
    var s := "abc,,a,,abc!!!";
    RuleSepListRecoverSepStep1();
  }

  lemma RuleSepListRecoverSepStep1()
    ensures Resume(RuleSepList, "abc,,a,,abc!!!", AtItem, 0, 0, []) == Outcome(true, 14, [Token("ab"), Token("c"), Token(","), Token(","), ExpectedLiteral(5, "ab", 1), ErrorToken("a"), Recovery, Finish, Token(","), Token(","), Token("ab"), Token("c"), Token("!!!"), Position], Count(2))
  {
    var s := "abc,,a,,abc!!!";
    assert s[0..2] == "ab";
    Hit("ab", s, 0);
    RuleSepListRecoverSepStep1Part0(s);
    RuleSepListRecoverSepStep2();
  }

  lemma RuleSepListRecoverSepStep1Part0(s: string)
    requires s == "abc,,a,,abc!!!"
    ensures StepsF(RuleItem.steps, s, 0, []) == Outcome(true, 3, [Token("ab"), Token("c")], NoValue)
  {
    StepsWhole(RuleItem.steps, s, 0, []);
    assert s[0..2] == "ab";
    LitHit(RuleItem.steps, 0, "ab", s, 0, [], [Token("ab")]);
    assert s[2..3] == "c";
    LitHit(RuleItem.steps, 1, "c", s, 2, [Token("ab")], [Token("ab"), Token("c")]);
    StepsDone(RuleItem.steps, s, 3, [Token("ab"), Token("c")]);
  }

  lemma RuleSepListRecoverSepStep2()
    ensures Resume(RuleSepList, "abc,,a,,abc!!!", AtTerminator, 3, 1, [Token("ab"), Token("c")]) == Outcome(true, 14, [Token("ab"), Token("c"), Token(","), Token(","), ExpectedLiteral(5, "ab", 1), ErrorToken("a"), Recovery, Finish, Token(","), Token(","), Token("ab"), Token("c"), Token("!!!"), Position], Count(2))
  {
    var s := "abc,,a,,abc!!!";
    assert s[3..3] == "";
    assert "!!!"[..0] == "";
    Miss("!!!", s, 3, 0, "");
    RuleSepListRecoverSepStep3();
  }

  lemma RuleSepListRecoverSepStep3()
    ensures Resume(RuleSepList, "abc,,a,,abc!!!", AtSeparator, 3, 1, [Token("ab"), Token("c")]) == Outcome(true, 14, [Token("ab"), Token("c"), Token(","), Token(","), ExpectedLiteral(5, "ab", 1), ErrorToken("a"), Recovery, Finish, Token(","), Token(","), Token("ab"), Token("c"), Token("!!!"), Position], Count(2))
  {
    var s := "abc,,a,,abc!!!";
    RuleSepListRecoverSepStep3Part0(s);
    assert s[5..5] == "";
    assert "!!!"[..0] == "";
    Miss("!!!", s, 5, 0, "");
    RuleSepListRecoverSepStep4();
  }

  lemma RuleSepListRecoverSepStep3Part0(s: string)
    requires s == "abc,,a,,abc!!!"
    ensures StepsF(DoubleComma.steps, s, 3, [Token("ab"), Token("c")]) == Outcome(true, 5, [Token("ab"), Token("c"), Token(","), Token(",")], NoValue)
  {
    StepsWhole(DoubleComma.steps, s, 3, [Token("ab"), Token("c")]);
    assert s[3..4] == ",";
    LitHit(DoubleComma.steps, 0, ",", s, 3, [Token("ab"), Token("c")], [Token("ab"), Token("c"), Token(",")]);
    assert s[4..5] == ",";
    LitHit(DoubleComma.steps, 1, ",", s, 4, [Token("ab"), Token("c"), Token(",")], [Token("ab"), Token("c"), Token(","), Token(",")]);
    StepsDone(DoubleComma.steps, s, 5, [Token("ab"), Token("c"), Token(","), Token(",")]);
  }

  lemma RuleSepListRecoverSepStep4()
    ensures Resume(RuleSepList, "abc,,a,,abc!!!", AtItem, 5, 1, [Token("ab"), Token("c"), Token(","), Token(",")]) == Outcome(true, 14, [Token("ab"), Token("c"), Token(","), Token(","), ExpectedLiteral(5, "ab", 1), ErrorToken("a"), Recovery, Finish, Token(","), Token(","), Token("ab"), Token("c"), Token("!!!"), Position], Count(2))
  {
    var s := "abc,,a,,abc!!!";
    assert s[5..6] == "a";
    assert "ab"[..1] == "a";
    Miss("ab", s, 5, 1, "a");
    RuleSepListRecoverSepStep4Part0(s);
    RuleSepListRecoverSepStep5();
  }

  lemma RuleSepListRecoverSepStep4Part0(s: string)
    requires s == "abc,,a,,abc!!!"
    ensures StepsF(RuleItem.steps, s, 5, [Token("ab"), Token("c"), Token(","), Token(",")]) == Outcome(false, 6, [Token("ab"), Token("c"), Token(","), Token(","), ExpectedLiteral(5, "ab", 1), ErrorToken("a")], NoValue)
  {
    StepsWhole(RuleItem.steps, s, 5, [Token("ab"), Token("c"), Token(","), Token(",")]);
    assert s[5..6] == "a";
    assert "ab"[..1] == "a";
    LitMiss(RuleItem.steps, 0, "ab", s, 5, 1, "a", [Token("ab"), Token("c"), Token(","), Token(",")], [Token("ab"), Token("c"), Token(","), Token(","), ExpectedLiteral(5, "ab", 1), ErrorToken("a")]);
  }

  lemma RuleSepListRecoverSepStep5()
    ensures Resume(RuleSepList, "abc,,a,,abc!!!", AtRecovery, 6, 1, [Token("ab"), Token("c"), Token(","), Token(","), ExpectedLiteral(5, "ab", 1), ErrorToken("a")]) == Outcome(true, 14, [Token("ab"), Token("c"), Token(","), Token(","), ExpectedLiteral(5, "ab", 1), ErrorToken("a"), Recovery, Finish, Token(","), Token(","), Token("ab"), Token("c"), Token("!!!"), Position], Count(2))
  {
    var s := "abc,,a,,abc!!!";
    assert ListStops(RuleSepList) == ["!!!", ","];
    assert s[6..6] == "";
    assert "!!!"[..0] == "";
    Miss("!!!", s, 6, 0, "");
    assert s[6..7] == ",";
    Hit(",", s, 6);
    Any2("!!!", ",", s, 6);
    assert s[6..6] == "";
    assert ";"[..0] == "";
    Miss(";", s, 6, 0, "");
    Any1(";", s, 6);
    ResyncHere(ListStops(RuleSepList), RuleSepList.term.limits, s, 6);
    RuleSepListRecoverSepStep5Part0(s);
    assert [Token("ab"), Token("c"), Token(","), Token(","), ExpectedLiteral(5, "ab", 1), ErrorToken("a"), Recovery] + [Finish] == [Token("ab"), Token("c"), Token(","), Token(","), ExpectedLiteral(5, "ab", 1), ErrorToken("a"), Recovery, Finish];
    RuleSepListRecoverSepStep6();
  }

  lemma RuleSepListRecoverSepStep5Part0(s: string)
    requires s == "abc,,a,,abc!!!"
    ensures Skip(s, 6, 6, [Token("ab"), Token("c"), Token(","), Token(","), ExpectedLiteral(5, "ab", 1), ErrorToken("a")] + [Recovery]) == [Token("ab"), Token("c"), Token(","), Token(","), ExpectedLiteral(5, "ab", 1), ErrorToken("a"), Recovery]
  {
    SkipDone(s, 6, [Token("ab"), Token("c"), Token(","), Token(","), ExpectedLiteral(5, "ab", 1), ErrorToken("a")] + [Recovery]);
  }

  lemma RuleSepListRecoverSepStep6()
    ensures Resume(RuleSepList, "abc,,a,,abc!!!", AtSeparator, 6, 1, [Token("ab"), Token("c"), Token(","), Token(","), ExpectedLiteral(5, "ab", 1), ErrorToken("a"), Recovery, Finish]) == Outcome(true, 14, [Token("ab"), Token("c"), Token(","), Token(","), ExpectedLiteral(5, "ab", 1), ErrorToken("a"), Recovery, Finish, Token(","), Token(","), Token("ab"), Token("c"), Token("!!!"), Position], Count(2))
  {
    var s := "abc,,a,,abc!!!";
    RuleSepListRecoverSepStep6Part0(s);
    assert s[8..8] == "";
    assert "!!!"[..0] == "";
    Miss("!!!", s, 8, 0, "");
    RuleSepListRecoverSepStep7();
  }

  lemma RuleSepListRecoverSepStep6Part0(s: string)
    requires s == "abc,,a,,abc!!!"
    ensures StepsF(DoubleComma.steps, s, 6, [Token("ab"), Token("c"), Token(","), Token(","), ExpectedLiteral(5, "ab", 1), ErrorToken("a"), Recovery, Finish]) == Outcome(true, 8, [Token("ab"), Token("c"), Token(","), Token(","), ExpectedLiteral(5, "ab", 1), ErrorToken("a"), Recovery, Finish, Token(","), Token(",")], NoValue)
  {
    StepsWhole(DoubleComma.steps, s, 6, [Token("ab"), Token("c"), Token(","), Token(","), ExpectedLiteral(5, "ab", 1), ErrorToken("a"), Recovery, Finish]);
    assert s[6..7] == ",";
    LitHit(DoubleComma.steps, 0, ",", s, 6, [Token("ab"), Token("c"), Token(","), Token(","), ExpectedLiteral(5, "ab", 1), ErrorToken("a"), Recovery, Finish], [Token("ab"), Token("c"), Token(","), Token(","), ExpectedLiteral(5, "ab", 1), ErrorToken("a"), Recovery, Finish, Token(",")]);
    assert s[7..8] == ",";
    LitHit(DoubleComma.steps, 1, ",", s, 7, [Token("ab"), Token("c"), Token(","), Token(","), ExpectedLiteral(5, "ab", 1), ErrorToken("a"), Recovery, Finish, Token(",")], [Token("ab"), Token("c"), Token(","), Token(","), ExpectedLiteral(5, "ab", 1), ErrorToken("a"), Recovery, Finish, Token(","), Token(",")]);
    StepsDone(DoubleComma.steps, s, 8, [Token("ab"), Token("c"), Token(","), Token(","), ExpectedLiteral(5, "ab", 1), ErrorToken("a"), Recovery, Finish, Token(","), Token(",")]);
  }

  lemma RuleSepListRecoverSepStep7()
    ensures Resume(RuleSepList, "abc,,a,,abc!!!", AtItem, 8, 1, [Token("ab"), Token("c"), Token(","), Token(","), ExpectedLiteral(5, "ab", 1), ErrorToken("a"), Recovery, Finish, Token(","), Token(",")]) == Outcome(true, 14, [Token("ab"), Token("c"), Token(","), Token(","), ExpectedLiteral(5, "ab", 1), ErrorToken("a"), Recovery, Finish, Token(","), Token(","), Token("ab"), Token("c"), Token("!!!"), Position], Count(2))
  {
    var s := "abc,,a,,abc!!!";
    assert s[8..10] == "ab";
    Hit("ab", s, 8);
    RuleSepListRecoverSepStep7Part0(s);
    RuleSepListRecoverSepStep8();
  }

  lemma RuleSepListRecoverSepStep7Part0(s: string)
    requires s == "abc,,a,,abc!!!"
    ensures StepsF(RuleItem.steps, s, 8, [Token("ab"), Token("c"), Token(","), Token(","), ExpectedLiteral(5, "ab", 1), ErrorToken("a"), Recovery, Finish, Token(","), Token(",")]) == Outcome(true, 11, [Token("ab"), Token("c"), Token(","), Token(","), ExpectedLiteral(5, "ab", 1), ErrorToken("a"), Recovery, Finish, Token(","), Token(","), Token("ab"), Token("c")], NoValue)
  {
    StepsWhole(RuleItem.steps, s, 8, [Token("ab"), Token("c"), Token(","), Token(","), ExpectedLiteral(5, "ab", 1), ErrorToken("a"), Recovery, Finish, Token(","), Token(",")]);
    assert s[8..10] == "ab";
    LitHit(RuleItem.steps, 0, "ab", s, 8, [Token("ab"), Token("c"), Token(","), Token(","), ExpectedLiteral(5, "ab", 1), ErrorToken("a"), Recovery, Finish, Token(","), Token(",")], [Token("ab"), Token("c"), Token(","), Token(","), ExpectedLiteral(5, "ab", 1), ErrorToken("a"), Recovery, Finish, Token(","), Token(","), Token("ab")]);
    assert s[10..11] == "c";
    LitHit(RuleItem.steps, 1, "c", s, 10, [Token("ab"), Token("c"), Token(","), Token(","), ExpectedLiteral(5, "ab", 1), ErrorToken("a"), Recovery, Finish, Token(","), Token(","), Token("ab")], [Token("ab"), Token("c"), Token(","), Token(","), ExpectedLiteral(5, "ab", 1), ErrorToken("a"), Recovery, Finish, Token(","), Token(","), Token("ab"), Token("c")]);
    StepsDone(RuleItem.steps, s, 11, [Token("ab"), Token("c"), Token(","), Token(","), ExpectedLiteral(5, "ab", 1), ErrorToken("a"), Recovery, Finish, Token(","), Token(","), Token("ab"), Token("c")]);
  }

  lemma RuleSepListRecoverSepStep8()
    ensures Resume(RuleSepList, "abc,,a,,abc!!!", AtTerminator, 11, 2, [Token("ab"), Token("c"), Token(","), Token(","), ExpectedLiteral(5, "ab", 1), ErrorToken("a"), Recovery, Finish, Token(","), Token(","), Token("ab"), Token("c")]) == Outcome(true, 14, [Token("ab"), Token("c"), Token(","), Token(","), ExpectedLiteral(5, "ab", 1), ErrorToken("a"), Recovery, Finish, Token(","), Token(","), Token("ab"), Token("c"), Token("!!!"), Position], Count(2))
  {
    var s := "abc,,a,,abc!!!";
    assert s[11..14] == "!!!";
    Hit("!!!", s, 11);
    RuleSepListRecoverSepStep8Part0(s);
  }

  lemma RuleSepListRecoverSepStep8Part0(s: string)
    requires s == "abc,,a,,abc!!!"
    ensures StepsF(TermRule(TestTerm).steps, s, 11, [Token("ab"), Token("c"), Token(","), Token(","), ExpectedLiteral(5, "ab", 1), ErrorToken("a"), Recovery, Finish, Token(","), Token(","), Token("ab"), Token("c")]) == Outcome(true, 14, [Token("ab"), Token("c"), Token(","), Token(","), ExpectedLiteral(5, "ab", 1), ErrorToken("a"), Recovery, Finish, Token(","), Token(","), Token("ab"), Token("c"), Token("!!!"), Position], NoValue)
  {
    StepsWhole(TermRule(TestTerm).steps, s, 11, [Token("ab"), Token("c"), Token(","), Token(","), ExpectedLiteral(5, "ab", 1), ErrorToken("a"), Recovery, Finish, Token(","), Token(","), Token("ab"), Token("c")]);
    assert s[11..14] == "!!!";
    LitHit(TermRule(TestTerm).steps, 0, "!!!", s, 11, [Token("ab"), Token("c"), Token(","), Token(","), ExpectedLiteral(5, "ab", 1), ErrorToken("a"), Recovery, Finish, Token(","), Token(","), Token("ab"), Token("c")], [Token("ab"), Token("c"), Token(","), Token(","), ExpectedLiteral(5, "ab", 1), ErrorToken("a"), Recovery, Finish, Token(","), Token(","), Token("ab"), Token("c"), Token("!!!")]);
    PosStep(TermRule(TestTerm).steps, 1, s, 14, [Token("ab"), Token("c"), Token(","), Token(","), ExpectedLiteral(5, "ab", 1), ErrorToken("a"), Recovery, Finish, Token(","), Token(","), Token("ab"), Token("c"), Token("!!!")], [Token("ab"), Token("c"), Token(","), Token(","), ExpectedLiteral(5, "ab", 1), ErrorToken("a"), Recovery, Finish, Token(","), Token(","), Token("ab"), Token("c"), Token("!!!"), Position]);
    StepsDone(TermRule(TestTerm).steps, s, 14, [Token("ab"), Token("c"), Token(","), Token(","), ExpectedLiteral(5, "ab", 1), ErrorToken("a"), Recovery, Finish, Token(","), Token(","), Token("ab"), Token("c"), Token("!!!"), Position]);
  }

  lemma RuleSepListRecoverSepVerdict()
    ensures Verify(Outcome(true, 14, [Token("ab"), Token("c"), Token(","), Token(","), ExpectedLiteral(5, "ab", 1), ErrorToken("a"), Recovery, Finish, Token(","), Token(","), Token("ab"), Token("c"), Token("!!!"), Position], Count(2))) == TestResult(RecoveredError, Count(2), [Token("ab"), Token("c"), Token(","), Token(","), ExpectedLiteral(5, "ab", 1), ErrorToken("a"), Recovery, Finish, Token(","), Token(","), Token("ab"), Token("c"), Token("!!!"), Position])
  {
    VerifyRecovered(Outcome(true, 14, [Token("ab"), Token("c"), Token(","), Token(","), ExpectedLiteral(5, "ab", 1), ErrorToken("a"), Recovery, Finish, Token(","), Token(","), Token("ab"), Token("c"), Token("!!!"), Position], Count(2)), 4);
  }

  /** `.list(rule, sep)` on "abc,,a,abc!!!". */
  lemma RuleSepListRecoverSepFailed()
    ensures Verify(ListF(RuleSepList, "abc,,a,abc!!!", 0, [])) == TestResult(RecoveredError, Count(1), [Token("ab"), Token("c"), Token(","), Token(","), ExpectedLiteral(5, "ab", 1), ErrorToken("a"), Recovery, Finish, Token(","), ExpectedLiteral(7, ",", 0), Recovery, ErrorToken("a"), ErrorToken("b"), ErrorToken("c"), Finish, Token("!!!"), Position])
  {
    RuleSepListRecoverSepFailedStep0();
    RuleSepListRecoverSepFailedVerdict();
  }

  lemma RuleSepListRecoverSepFailedStep0()
    ensures ListF(RuleSepList, "abc,,a,abc!!!", 0, []) == Outcome(true, 13, [Token("ab"), Token("c"), Token(","), Token(","), ExpectedLiteral(5, "ab", 1), ErrorToken("a"), Recovery, Finish, Token(","), ExpectedLiteral(7, ",", 0), Recovery, ErrorToken("a"), ErrorToken("b"), ErrorToken("c"), Finish, Token("!!!"), Position], Count(1))
  {
    var s := "abc,,a,abc!!!";
    RuleSepListRecoverSepFailedStep1();
  }

  lemma RuleSepListRecoverSepFailedStep1()
    ensures Resume(RuleSepList, "abc,,a,abc!!!", AtItem, 0, 0, []) == Outcome(true, 13, [Token("ab"), Token("c"), Token(","), Token(","), ExpectedLiteral(5, "ab", 1), ErrorToken("a"), Recovery, Finish, Token(","), ExpectedLiteral(7, ",", 0), Recovery, ErrorToken("a"), ErrorToken("b"), ErrorToken("c"), Finish, Token("!!!"), Position], Count(1))
  {
    var s := "abc,,a,abc!!!";
    assert s[0..2] == "ab";
    Hit("ab", s, 0);
    RuleSepListRecoverSepFailedStep1Part0(s);
    RuleSepListRecoverSepFailedStep2();
  }

  lemma RuleSepListRecoverSepFailedStep1Part0(s: string)
    requires s == "abc,,a,abc!!!"
    ensures StepsF(RuleItem.steps, s, 0, []) == Outcome(true, 3, [Token("ab"), Token("c")], NoValue)
  {
    StepsWhole(RuleItem.steps, s, 0, []);
    assert s[0..2] == "ab";
    LitHit(RuleItem.steps, 0, "ab", s, 0, [], [Token("ab")]);
    assert s[2..3] == "c";
    LitHit(RuleItem.steps, 1, "c", s, 2, [Token("ab")], [Token("ab"), Token("c")]);
    StepsDone(RuleItem.steps, s, 3, [Token("ab"), Token("c")]);
  }

  lemma RuleSepListRecoverSepFailedStep2()
    ensures Resume(RuleSepList, "abc,,a,abc!!!", AtTerminator, 3, 1, [Token("ab"), Token("c")]) == Outcome(true, 13, [Token("ab"), Token("c"), Token(","), Token(","), ExpectedLiteral(5, "ab", 1), ErrorToken("a"), Recovery, Finish, Token(","), ExpectedLiteral(7, ",", 0), Recovery, ErrorToken("a"), ErrorToken("b"), ErrorToken("c"), Finish, Token("!!!"), Position], Count(1))
  {
    var s := "abc,,a,abc!!!";
    assert s[3..3] == "";
    assert "!!!"[..0] == "";
    Miss("!!!", s, 3, 0, "");
    RuleSepListRecoverSepFailedStep3();
  }

  lemma RuleSepListRecoverSepFailedStep3()
    ensures Resume(RuleSepList, "abc,,a,abc!!!", AtSeparator, 3, 1, [Token("ab"), Token("c")]) == Outcome(true, 13, [Token("ab"), Token("c"), Token(","), Token(","), ExpectedLiteral(5, "ab", 1), ErrorToken("a"), Recovery, Finish, Token(","), ExpectedLiteral(7, ",", 0), Recovery, ErrorToken("a"), ErrorToken("b"), ErrorToken("c"), Finish, Token("!!!"), Position], Count(1))
  {
    var s := "abc,,a,abc!!!";
    RuleSepListRecoverSepFailedStep3Part0(s);
    assert s[5..5] == "";
    assert "!!!"[..0] == "";
    Miss("!!!", s, 5, 0, "");
    RuleSepListRecoverSepFailedStep4();
  }

  lemma RuleSepListRecoverSepFailedStep3Part0(s: string)
    requires s == "abc,,a,abc!!!"
    ensures StepsF(DoubleComma.steps, s, 3, [Token("ab"), Token("c")]) == Outcome(true, 5, [Token("ab"), Token("c"), Token(","), Token(",")], NoValue)
  {
    StepsWhole(DoubleComma.steps, s, 3, [Token("ab"), Token("c")]);
    assert s[3..4] == ",";
    LitHit(DoubleComma.steps, 0, ",", s, 3, [Token("ab"), Token("c")], [Token("ab"), Token("c"), Token(",")]);
    assert s[4..5] == ",";
    LitHit(DoubleComma.steps, 1, ",", s, 4, [Token("ab"), Token("c"), Token(",")], [Token("ab"), Token("c"), Token(","), Token(",")]);
    StepsDone(DoubleComma.steps, s, 5, [Token("ab"), Token("c"), Token(","), Token(",")]);
  }

  lemma RuleSepListRecoverSepFailedStep4()
    ensures Resume(RuleSepList, "abc,,a,abc!!!", AtItem, 5, 1, [Token("ab"), Token("c"), Token(","), Token(",")]) == Outcome(true, 13, [Token("ab"), Token("c"), Token(","), Token(","), ExpectedLiteral(5, "ab", 1), ErrorToken("a"), Recovery, Finish, Token(","), ExpectedLiteral(7, ",", 0), Recovery, ErrorToken("a"), ErrorToken("b"), ErrorToken("c"), Finish, Token("!!!"), Position], Count(1))
  {
    var s := "abc,,a,abc!!!";
    assert s[5..6] == "a";
    assert "ab"[..1] == "a";
    Miss("ab", s, 5, 1, "a");
    RuleSepListRecoverSepFailedStep4Part0(s);
    RuleSepListRecoverSepFailedStep5();
  }

  lemma RuleSepListRecoverSepFailedStep4Part0(s: string)
    requires s == "abc,,a,abc!!!"
    ensures StepsF(RuleItem.steps, s, 5, [Token("ab"), Token("c"), Token(","), Token(",")]) == Outcome(false, 6, [Token("ab"), Token("c"), Token(","), Token(","), ExpectedLiteral(5, "ab", 1), ErrorToken("a")], NoValue)
  {
    StepsWhole(RuleItem.steps, s, 5, [Token("ab"), Token("c"), Token(","), Token(",")]);
    assert s[5..6] == "a";
    assert "ab"[..1] == "a";
    LitMiss(RuleItem.steps, 0, "ab", s, 5, 1, "a", [Token("ab"), Token("c"), Token(","), Token(",")], [Token("ab"), Token("c"), Token(","), Token(","), ExpectedLiteral(5, "ab", 1), ErrorToken("a")]);
  }

  lemma RuleSepListRecoverSepFailedStep5()
    ensures Resume(RuleSepList, "abc,,a,abc!!!", AtRecovery, 6, 1, [Token("ab"), Token("c"), Token(","), Token(","), ExpectedLiteral(5, "ab", 1), ErrorToken("a")]) == Outcome(true, 13, [Token("ab"), Token("c"), Token(","), Token(","), ExpectedLiteral(5, "ab", 1), ErrorToken("a"), Recovery, Finish, Token(","), ExpectedLiteral(7, ",", 0), Recovery, ErrorToken("a"), ErrorToken("b"), ErrorToken("c"), Finish, Token("!!!"), Position], Count(1))
  {
    var s := "abc,,a,abc!!!";
    assert ListStops(RuleSepList) == ["!!!", ","];
    assert s[6..6] == "";
    assert "!!!"[..0] == "";
    Miss("!!!", s, 6, 0, "");
    assert s[6..7] == ",";
    Hit(",", s, 6);
    Any2("!!!", ",", s, 6);
    assert s[6..6] == "";
    assert ";"[..0] == "";
    Miss(";", s, 6, 0, "");
    Any1(";", s, 6);
    ResyncHere(ListStops(RuleSepList), RuleSepList.term.limits, s, 6);
    RuleSepListRecoverSepFailedStep5Part0(s);
    assert [Token("ab"), Token("c"), Token(","), Token(","), ExpectedLiteral(5, "ab", 1), ErrorToken("a"), Recovery] + [Finish] == [Token("ab"), Token("c"), Token(","), Token(","), ExpectedLiteral(5, "ab", 1), ErrorToken("a"), Recovery, Finish];
    RuleSepListRecoverSepFailedStep6();
  }

  lemma RuleSepListRecoverSepFailedStep5Part0(s: string)
    requires s == "abc,,a,abc!!!"
    ensures Skip(s, 6, 6, [Token("ab"), Token("c"), Token(","), Token(","), ExpectedLiteral(5, "ab", 1), ErrorToken("a")] + [Recovery]) == [Token("ab"), Token("c"), Token(","), Token(","), ExpectedLiteral(5, "ab", 1), ErrorToken("a"), Recovery]
  {
    SkipDone(s, 6, [Token("ab"), Token("c"), Token(","), Token(","), ExpectedLiteral(5, "ab", 1), ErrorToken("a")] + [Recovery]);
  }

  lemma RuleSepListRecoverSepFailedStep6()
    ensures Resume(RuleSepList, "abc,,a,abc!!!", AtSeparator, 6, 1, [Token("ab"), Token("c"), Token(","), Token(","), ExpectedLiteral(5, "ab", 1), ErrorToken("a"), Recovery, Finish]) == Outcome(true, 13, [Token("ab"), Token("c"), Token(","), Token(","), ExpectedLiteral(5, "ab", 1), ErrorToken("a"), Recovery, Finish, Token(","), ExpectedLiteral(7, ",", 0), Recovery, ErrorToken("a"), ErrorToken("b"), ErrorToken("c"), Finish, Token("!!!"), Position], Count(1))
  {
    var s := "abc,,a,abc!!!";
    RuleSepListRecoverSepFailedStep6Part0(s);
    RuleSepListRecoverSepFailedStep7();
  }

  lemma RuleSepListRecoverSepFailedStep6Part0(s: string)
    requires s == "abc,,a,abc!!!"
    ensures StepsF(DoubleComma.steps, s, 6, [Token("ab"), Token("c"), Token(","), Token(","), ExpectedLiteral(5, "ab", 1), ErrorToken("a"), Recovery, Finish]) == Outcome(false, 7, [Token("ab"), Token("c"), Token(","), Token(","), ExpectedLiteral(5, "ab", 1), ErrorToken("a"), Recovery, Finish, Token(","), ExpectedLiteral(7, ",", 0)], NoValue)
  {
    StepsWhole(DoubleComma.steps, s, 6, [Token("ab"), Token("c"), Token(","), Token(","), ExpectedLiteral(5, "ab", 1), ErrorToken("a"), Recovery, Finish]);
    assert s[6..7] == ",";
    LitHit(DoubleComma.steps, 0, ",", s, 6, [Token("ab"), Token("c"), Token(","), Token(","), ExpectedLiteral(5, "ab", 1), ErrorToken("a"), Recovery, Finish], [Token("ab"), Token("c"), Token(","), Token(","), ExpectedLiteral(5, "ab", 1), ErrorToken("a"), Recovery, Finish, Token(",")]);
    assert s[7..7] == "";
    assert ","[..0] == "";
    LitMiss(DoubleComma.steps, 1, ",", s, 7, 0, "", [Token("ab"), Token("c"), Token(","), Token(","), ExpectedLiteral(5, "ab", 1), ErrorToken("a"), Recovery, Finish, Token(",")], [Token("ab"), Token("c"), Token(","), Token(","), ExpectedLiteral(5, "ab", 1), ErrorToken("a"), Recovery, Finish, Token(","), ExpectedLiteral(7, ",", 0)]);
  }

  lemma RuleSepListRecoverSepFailedStep7()
    ensures Resume(RuleSepList, "abc,,a,abc!!!", AtRecovery, 7, 1, [Token("ab"), Token("c"), Token(","), Token(","), ExpectedLiteral(5, "ab", 1), ErrorToken("a"), Recovery, Finish, Token(","), ExpectedLiteral(7, ",", 0)]) == Outcome(true, 13, [Token("ab"), Token("c"), Token(","), Token(","), ExpectedLiteral(5, "ab", 1), ErrorToken("a"), Recovery, Finish, Token(","), ExpectedLiteral(7, ",", 0), Recovery, ErrorToken("a"), ErrorToken("b"), ErrorToken("c"), Finish, Token("!!!"), Position], Count(1))
  {
    var s := "abc,,a,abc!!!";
    assert ListStops(RuleSepList) == ["!!!", ","];
    assert s[7..7] == "";
    assert "!!!"[..0] == "";
    Miss("!!!", s, 7, 0, "");
    assert s[7..7] == "";
    assert ","[..0] == "";
    Miss(",", s, 7, 0, "");
    Any2("!!!", ",", s, 7);
    assert s[7..7] == "";
    assert ";"[..0] == "";
    Miss(";", s, 7, 0, "");
    Any1(";", s, 7);
    ResyncNext(ListStops(RuleSepList), RuleSepList.term.limits, s, 7);
    assert s[8..8] == "";
    assert "!!!"[..0] == "";
    Miss("!!!", s, 8, 0, "");
    assert s[8..8] == "";
    assert ","[..0] == "";
    Miss(",", s, 8, 0, "");
    Any2("!!!", ",", s, 8);
    assert s[8..8] == "";
    assert ";"[..0] == "";
    Miss(";", s, 8, 0, "");
    Any1(";", s, 8);
    ResyncNext(ListStops(RuleSepList), RuleSepList.term.limits, s, 8);
    assert s[9..9] == "";
    assert "!!!"[..0] == "";
    Miss("!!!", s, 9, 0, "");
    assert s[9..9] == "";
    assert ","[..0] == "";
    Miss(",", s, 9, 0, "");
    Any2("!!!", ",", s, 9);
    assert s[9..9] == "";
    assert ";"[..0] == "";
    Miss(";", s, 9, 0, "");
    Any1(";", s, 9);
    ResyncNext(ListStops(RuleSepList), RuleSepList.term.limits, s, 9);
    assert s[10..13] == "!!!";
    Hit("!!!", s, 10);
    assert s[10..10] == "";
    assert ","[..0] == "";
    Miss(",", s, 10, 0, "");
    Any2("!!!", ",", s, 10);
    assert s[10..10] == "";
    assert ";"[..0] == "";
    Miss(";", s, 10, 0, "");
    Any1(";", s, 10);
    ResyncHere(ListStops(RuleSepList), RuleSepList.term.limits, s, 10);
    RuleSepListRecoverSepFailedStep7Part0(s);
    RuleSepListRecoverSepFailedStep7Part1(s);
  }

  lemma RuleSepListRecoverSepFailedStep7Part0(s: string)
    requires s == "abc,,a,abc!!!"
    ensures Skip(s, 7, 10, [Token("ab"), Token("c"), Token(","), Token(","), ExpectedLiteral(5, "ab", 1), ErrorToken("a"), Recovery, Finish, Token(","), ExpectedLiteral(7, ",", 0)] + [Recovery]) == [Token("ab"), Token("c"), Token(","), Token(","), ExpectedLiteral(5, "ab", 1), ErrorToken("a"), Recovery, Finish, Token(","), ExpectedLiteral(7, ",", 0), Recovery, ErrorToken("a"), ErrorToken("b"), ErrorToken("c")]
  {
    SkipStep(s, 7, 10, [Token("ab"), Token("c"), Token(","), Token(","), ExpectedLiteral(5, "ab", 1), ErrorToken("a"), Recovery, Finish, Token(","), ExpectedLiteral(7, ",", 0)] + [Recovery], [Token("ab"), Token("c"), Token(","), Token(","), ExpectedLiteral(5, "ab", 1), ErrorToken("a"), Recovery, Finish, Token(","), ExpectedLiteral(7, ",", 0), Recovery, ErrorToken("a")]);
    SkipStep(s, 8, 10, [Token("ab"), Token("c"), Token(","), Token(","), ExpectedLiteral(5, "ab", 1), ErrorToken("a"), Recovery, Finish, Token(","), ExpectedLiteral(7, ",", 0), Recovery, ErrorToken("a")], [Token("ab"), Token("c"), Token(","), Token(","), ExpectedLiteral(5, "ab", 1), ErrorToken("a"), Recovery, Finish, Token(","), ExpectedLiteral(7, ",", 0), Recovery, ErrorToken("a"), ErrorToken("b")]);
    SkipStep(s, 9, 10, [Token("ab"), Token("c"), Token(","), Token(","), ExpectedLiteral(5, "ab", 1), ErrorToken("a"), Recovery, Finish, Token(","), ExpectedLiteral(7, ",", 0), Recovery, ErrorToken("a"), ErrorToken("b")], [Token("ab"), Token("c"), Token(","), Token(","), ExpectedLiteral(5, "ab", 1), ErrorToken("a"), Recovery, Finish, Token(","), ExpectedLiteral(7, ",", 0), Recovery, ErrorToken("a"), ErrorToken("b"), ErrorToken("c")]);
    SkipDone(s, 10, [Token("ab"), Token("c"), Token(","), Token(","), ExpectedLiteral(5, "ab", 1), ErrorToken("a"), Recovery, Finish, Token(","), ExpectedLiteral(7, ",", 0), Recovery, ErrorToken("a"), ErrorToken("b"), ErrorToken("c")]);
  }

  lemma RuleSepListRecoverSepFailedStep7Part1(s: string)
    requires s == "abc,,a,abc!!!"
    ensures StepsF(TermRule(TestTerm).steps, s, 10, [Token("ab"), Token("c"), Token(","), Token(","), ExpectedLiteral(5, "ab", 1), ErrorToken("a"), Recovery, Finish, Token(","), ExpectedLiteral(7, ",", 0), Recovery, ErrorToken("a"), ErrorToken("b"), ErrorToken("c")] + [Finish]) == Outcome(true, 13, [Token("ab"), Token("c"), Token(","), Token(","), ExpectedLiteral(5, "ab", 1), ErrorToken("a"), Recovery, Finish, Token(","), ExpectedLiteral(7, ",", 0), Recovery, ErrorToken("a"), ErrorToken("b"), ErrorToken("c"), Finish, Token("!!!"), Position], NoValue)
  {
    StepsWhole(TermRule(TestTerm).steps, s, 10, [Token("ab"), Token("c"), Token(","), Token(","), ExpectedLiteral(5, "ab", 1), ErrorToken("a"), Recovery, Finish, Token(","), ExpectedLiteral(7, ",", 0), Recovery, ErrorToken("a"), ErrorToken("b"), ErrorToken("c")] + [Finish]);
    assert s[10..13] == "!!!";
    LitHit(TermRule(TestTerm).steps, 0, "!!!", s, 10, [Token("ab"), Token("c"), Token(","), Token(","), ExpectedLiteral(5, "ab", 1), ErrorToken("a"), Recovery, Finish, Token(","), ExpectedLiteral(7, ",", 0), Recovery, ErrorToken("a"), ErrorToken("b"), ErrorToken("c")] + [Finish], [Token("ab"), Token("c"), Token(","), Token(","), ExpectedLiteral(5, "ab", 1), ErrorToken("a"), Recovery, Finish, Token(","), ExpectedLiteral(7, ",", 0), Recovery, ErrorToken("a"), ErrorToken("b"), ErrorToken("c"), Finish, Token("!!!")]);
    PosStep(TermRule(TestTerm).steps, 1, s, 13, [Token("ab"), Token("c"), Token(","), Token(","), ExpectedLiteral(5, "ab", 1), ErrorToken("a"), Recovery, Finish, Token(","), ExpectedLiteral(7, ",", 0), Recovery, ErrorToken("a"), ErrorToken("b"), ErrorToken("c"), Finish, Token("!!!")], [Token("ab"), Token("c"), Token(","), Token(","), ExpectedLiteral(5, "ab", 1), ErrorToken("a"), Recovery, Finish, Token(","), ExpectedLiteral(7, ",", 0), Recovery, ErrorToken("a"), ErrorToken("b"), ErrorToken("c"), Finish, Token("!!!"), Position]);
    StepsDone(TermRule(TestTerm).steps, s, 13, [Token("ab"), Token("c"), Token(","), Token(","), ExpectedLiteral(5, "ab", 1), ErrorToken("a"), Recovery, Finish, Token(","), ExpectedLiteral(7, ",", 0), Recovery, ErrorToken("a"), ErrorToken("b"), ErrorToken("c"), Finish, Token("!!!"), Position]);
  }

  lemma RuleSepListRecoverSepFailedVerdict()
    ensures Verify(Outcome(true, 13, [Token("ab"), Token("c"), Token(","), Token(","), ExpectedLiteral(5, "ab", 1), ErrorToken("a"), Recovery, Finish, Token(","), ExpectedLiteral(7, ",", 0), Recovery, ErrorToken("a"), ErrorToken("b"), ErrorToken("c"), Finish, Token("!!!"), Position], Count(1))) == TestResult(RecoveredError, Count(1), [Token("ab"), Token("c"), Token(","), Token(","), ExpectedLiteral(5, "ab", 1), ErrorToken("a"), Recovery, Finish, Token(","), ExpectedLiteral(7, ",", 0), Recovery, ErrorToken("a"), ErrorToken("b"), ErrorToken("c"), Finish, Token("!!!"), Position])
  {
    VerifyRecovered(Outcome(true, 13, [Token("ab"), Token("c"), Token(","), Token(","), ExpectedLiteral(5, "ab", 1), ErrorToken("a"), Recovery, Finish, Token(","), ExpectedLiteral(7, ",", 0), Recovery, ErrorToken("a"), ErrorToken("b"), ErrorToken("c"), Finish, Token("!!!"), Position], Count(1)), 4);
  }

  /** `.list(rule, sep)` on "abc,,abd!!!". */
  lemma RuleSepListRecoverTerminator()
    ensures Verify(ListF(RuleSepList, "abc,,abd!!!", 0, [])) == TestResult(RecoveredError, Count(1), [Token("ab"), Token("c"), Token(","), Token(","), Token("ab"), ExpectedLiteral(7, "c", 0), Recovery, ErrorToken("d"), Finish, Token("!!!"), Position])
  {
    RuleSepListRecoverTerminatorStep0();
    RuleSepListRecoverTerminatorVerdict();
  }

  lemma RuleSepListRecoverTerminatorStep0()
    ensures ListF(RuleSepList, "abc,,abd!!!", 0, []) == Outcome(true, 11, [Token("ab"), Token("c"), Token(","), Token(","), Token("ab"), ExpectedLiteral(7, "c", 0), Recovery, ErrorToken("d"), Finish, Token("!!!"), Position], Count(1))
  {
    var s := "abc,,abd!!!";
    RuleSepListRecoverTerminatorStep1();
  }

  lemma RuleSepListRecoverTerminatorStep1()
    ensures Resume(RuleSepList, "abc,,abd!!!", AtItem, 0, 0, []) == Outcome(true, 11, [Token("ab"), Token("c"), Token(","), Token(","), Token("ab"), ExpectedLiteral(7, "c", 0), Recovery, ErrorToken("d"), Finish, Token("!!!"), Position], Count(1))
  {
    var s := "abc,,abd!!!";
    assert s[0..2] == "ab";
    Hit("ab", s, 0);
    RuleSepListRecoverTerminatorStep1Part0(s);
    RuleSepListRecoverTerminatorStep2();
  }

  lemma RuleSepListRecoverTerminatorStep1Part0(s: string)
    requires s == "abc,,abd!!!"
    ensures StepsF(RuleItem.steps, s, 0, []) == Outcome(true, 3, [Token("ab"), Token("c")], NoValue)
  {
    StepsWhole(RuleItem.steps, s, 0, []);
    assert s[0..2] == "ab";
    LitHit(RuleItem.steps, 0, "ab", s, 0, [], [Token("ab")]);
    assert s[2..3] == "c";
    LitHit(RuleItem.steps, 1, "c", s, 2, [Token("ab")], [Token("ab"), Token("c")]);
    StepsDone(RuleItem.steps, s, 3, [Token("ab"), Token("c")]);
  }

  lemma RuleSepListRecoverTerminatorStep2()
    ensures Resume(RuleSepList, "abc,,abd!!!", AtTerminator, 3, 1, [Token("ab"), Token("c")]) == Outcome(true, 11, [Token("ab"), Token("c"), Token(","), Token(","), Token("ab"), ExpectedLiteral(7, "c", 0), Recovery, ErrorToken("d"), Finish, Token("!!!"), Position], Count(1))
  {
    var s := "abc,,abd!!!";
    assert s[3..3] == "";
    assert "!!!"[..0] == "";
    Miss("!!!", s, 3, 0, "");
    RuleSepListRecoverTerminatorStep3();
  }

  lemma RuleSepListRecoverTerminatorStep3()
    ensures Resume(RuleSepList, "abc,,abd!!!", AtSeparator, 3, 1, [Token("ab"), Token("c")]) == Outcome(true, 11, [Token("ab"), Token("c"), Token(","), Token(","), Token("ab"), ExpectedLiteral(7, "c", 0), Recovery, ErrorToken("d"), Finish, Token("!!!"), Position], Count(1))
  {
    var s := "abc,,abd!!!";
    RuleSepListRecoverTerminatorStep3Part0(s);
    assert s[5..5] == "";
    assert "!!!"[..0] == "";
    Miss("!!!", s, 5, 0, "");
    RuleSepListRecoverTerminatorStep4();
  }

  lemma RuleSepListRecoverTerminatorStep3Part0(s: string)
    requires s == "abc,,abd!!!"
    ensures StepsF(DoubleComma.steps, s, 3, [Token("ab"), Token("c")]) == Outcome(true, 5, [Token("ab"), Token("c"), Token(","), Token(",")], NoValue)
  {
    StepsWhole(DoubleComma.steps, s, 3, [Token("ab"), Token("c")]);
    assert s[3..4] == ",";
    LitHit(DoubleComma.steps, 0, ",", s, 3, [Token("ab"), Token("c")], [Token("ab"), Token("c"), Token(",")]);
    assert s[4..5] == ",";
    LitHit(DoubleComma.steps, 1, ",", s, 4, [Token("ab"), Token("c"), Token(",")], [Token("ab"), Token("c"), Token(","), Token(",")]);
    StepsDone(DoubleComma.steps, s, 5, [Token("ab"), Token("c"), Token(","), Token(",")]);
  }

  lemma RuleSepListRecoverTerminatorStep4()
    ensures Resume(RuleSepList, "abc,,abd!!!", AtItem, 5, 1, [Token("ab"), Token("c"), Token(","), Token(",")]) == Outcome(true, 11, [Token("ab"), Token("c"), Token(","), Token(","), Token("ab"), ExpectedLiteral(7, "c", 0), Recovery, ErrorToken("d"), Finish, Token("!!!"), Position], Count(1))
  {
    var s := "abc,,abd!!!";
    assert s[5..7] == "ab";
    Hit("ab", s, 5);
    RuleSepListRecoverTerminatorStep4Part0(s);
    RuleSepListRecoverTerminatorStep5();
  }

  lemma RuleSepListRecoverTerminatorStep4Part0(s: string)
    requires s == "abc,,abd!!!"
    ensures StepsF(RuleItem.steps, s, 5, [Token("ab"), Token("c"), Token(","), Token(",")]) == Outcome(false, 7, [Token("ab"), Token("c"), Token(","), Token(","), Token("ab"), ExpectedLiteral(7, "c", 0)], NoValue)
  {
    StepsWhole(RuleItem.steps, s, 5, [Token("ab"), Token("c"), Token(","), Token(",")]);
    assert s[5..7] == "ab";
    LitHit(RuleItem.steps, 0, "ab", s, 5, [Token("ab"), Token("c"), Token(","), Token(",")], [Token("ab"), Token("c"), Token(","), Token(","), Token("ab")]);
    assert s[7..7] == "";
    assert "c"[..0] == "";
    LitMiss(RuleItem.steps, 1, "c", s, 7, 0, "", [Token("ab"), Token("c"), Token(","), Token(","), Token("ab")], [Token("ab"), Token("c"), Token(","), Token(","), Token("ab"), ExpectedLiteral(7, "c", 0)]);
  }

  lemma RuleSepListRecoverTerminatorStep5()
    ensures Resume(RuleSepList, "abc,,abd!!!", AtRecovery, 7, 1, [Token("ab"), Token("c"), Token(","), Token(","), Token("ab"), ExpectedLiteral(7, "c", 0)]) == Outcome(true, 11, [Token("ab"), Token("c"), Token(","), Token(","), Token("ab"), ExpectedLiteral(7, "c", 0), Recovery, ErrorToken("d"), Finish, Token("!!!"), Position], Count(1))
  {
    var s := "abc,,abd!!!";
    assert ListStops(RuleSepList) == ["!!!", ","];
    assert s[7..7] == "";
    assert "!!!"[..0] == "";
    Miss("!!!", s, 7, 0, "");
    assert s[7..7] == "";
    assert ","[..0] == "";
    Miss(",", s, 7, 0, "");
    Any2("!!!", ",", s, 7);
    assert s[7..7] == "";
    assert ";"[..0] == "";
    Miss(";", s, 7, 0, "");
    Any1(";", s, 7);
    ResyncNext(ListStops(RuleSepList), RuleSepList.term.limits, s, 7);
    assert s[8..11] == "!!!";
    Hit("!!!", s, 8);
    assert s[8..8] == "";
    assert ","[..0] == "";
    Miss(",", s, 8, 0, "");
    Any2("!!!", ",", s, 8);
    assert s[8..8] == "";
    assert ";"[..0] == "";
    Miss(";", s, 8, 0, "");
    Any1(";", s, 8);
    ResyncHere(ListStops(RuleSepList), RuleSepList.term.limits, s, 8);
    RuleSepListRecoverTerminatorStep5Part0(s);
    RuleSepListRecoverTerminatorStep5Part1(s);
  }

  lemma RuleSepListRecoverTerminatorStep5Part0(s: string)
    requires s == "abc,,abd!!!"
    ensures Skip(s, 7, 8, [Token("ab"), Token("c"), Token(","), Token(","), Token("ab"), ExpectedLiteral(7, "c", 0)] + [Recovery]) == [Token("ab"), Token("c"), Token(","), Token(","), Token("ab"), ExpectedLiteral(7, "c", 0), Recovery, ErrorToken("d")]
  {
    SkipStep(s, 7, 8, [Token("ab"), Token("c"), Token(","), Token(","), Token("ab"), ExpectedLiteral(7, "c", 0)] + [Recovery], [Token("ab"), Token("c"), Token(","), Token(","), Token("ab"), ExpectedLiteral(7, "c", 0), Recovery, ErrorToken("d")]);
    SkipDone(s, 8, [Token("ab"), Token("c"), Token(","), Token(","), Token("ab"), ExpectedLiteral(7, "c", 0), Recovery, ErrorToken("d")]);
  }

  lemma RuleSepListRecoverTerminatorStep5Part1(s: string)
    requires s == "abc,,abd!!!"
    ensures StepsF(TermRule(TestTerm).steps, s, 8, [Token("ab"), Token("c"), Token(","), Token(","), Token("ab"), ExpectedLiteral(7, "c", 0), Recovery, ErrorToken("d")] + [Finish]) == Outcome(true, 11, [Token("ab"), Token("c"), Token(","), Token(","), Token("ab"), ExpectedLiteral(7, "c", 0), Recovery, ErrorToken("d"), Finish, Token("!!!"), Position], NoValue)
  {
    StepsWhole(TermRule(TestTerm).steps, s, 8, [Token("ab"), Token("c"), Token(","), Token(","), Token("ab"), ExpectedLiteral(7, "c", 0), Recovery, ErrorToken("d")] + [Finish]);
    assert s[8..11] == "!!!";
    LitHit(TermRule(TestTerm).steps, 0, "!!!", s, 8, [Token("ab"), Token("c"), Token(","), Token(","), Token("ab"), ExpectedLiteral(7, "c", 0), Recovery, ErrorToken("d")] + [Finish], [Token("ab"), Token("c"), Token(","), Token(","), Token("ab"), ExpectedLiteral(7, "c", 0), Recovery, ErrorToken("d"), Finish, Token("!!!")]);
    PosStep(TermRule(TestTerm).steps, 1, s, 11, [Token("ab"), Token("c"), Token(","), Token(","), Token("ab"), ExpectedLiteral(7, "c", 0), Recovery, ErrorToken("d"), Finish, Token("!!!")], [Token("ab"), Token("c"), Token(","), Token(","), Token("ab"), ExpectedLiteral(7, "c", 0), Recovery, ErrorToken("d"), Finish, Token("!!!"), Position]);
    StepsDone(TermRule(TestTerm).steps, s, 11, [Token("ab"), Token("c"), Token(","), Token(","), Token("ab"), ExpectedLiteral(7, "c", 0), Recovery, ErrorToken("d"), Finish, Token("!!!"), Position]);
  }

  lemma RuleSepListRecoverTerminatorVerdict()
    ensures Verify(Outcome(true, 11, [Token("ab"), Token("c"), Token(","), Token(","), Token("ab"), ExpectedLiteral(7, "c", 0), Recovery, ErrorToken("d"), Finish, Token("!!!"), Position], Count(1))) == TestResult(RecoveredError, Count(1), [Token("ab"), Token("c"), Token(","), Token(","), Token("ab"), ExpectedLiteral(7, "c", 0), Recovery, ErrorToken("d"), Finish, Token("!!!"), Position])
  {
    VerifyRecovered(Outcome(true, 11, [Token("ab"), Token("c"), Token(","), Token(","), Token("ab"), ExpectedLiteral(7, "c", 0), Recovery, ErrorToken("d"), Finish, Token("!!!"), Position], Count(1)), 5);
  }

  /** `.list(rule, sep)` on "abc,,abd;abc!!!". */
  lemma RuleSepListRecoverLimit()
    ensures Verify(ListF(RuleSepList, "abc,,abd;abc!!!", 0, [])) == TestResult(FatalError, Count(1), [Token("ab"), Token("c"), Token(","), Token(","), Token("ab"), ExpectedLiteral(7, "c", 0), Recovery, ErrorToken("d"), Cancel, Cancel])
  {
    RuleSepListRecoverLimitStep0();
    RuleSepListRecoverLimitVerdict();
  }

  lemma RuleSepListRecoverLimitStep0()
    ensures ListF(RuleSepList, "abc,,abd;abc!!!", 0, []) == Outcome(false, 8, [Token("ab"), Token("c"), Token(","), Token(","), Token("ab"), ExpectedLiteral(7, "c", 0), Recovery, ErrorToken("d"), Cancel], Count(1))
  {
    var s := "abc,,abd;abc!!!";
    RuleSepListRecoverLimitStep1();
  }

  lemma RuleSepListRecoverLimitStep1()
    ensures Resume(RuleSepList, "abc,,abd;abc!!!", AtItem, 0, 0, []) == Outcome(false, 8, [Token("ab"), Token("c"), Token(","), Token(","), Token("ab"), ExpectedLiteral(7, "c", 0), Recovery, ErrorToken("d"), Cancel], Count(1))
  {
    var s := "abc,,abd;abc!!!";
    assert s[0..2] == "ab";
    Hit("ab", s, 0);
    RuleSepListRecoverLimitStep1Part0(s);
    RuleSepListRecoverLimitStep2();
  }

  lemma RuleSepListRecoverLimitStep1Part0(s: string)
    requires s == "abc,,abd;abc!!!"
    ensures StepsF(RuleItem.steps, s, 0, []) == Outcome(true, 3, [Token("ab"), Token("c")], NoValue)
  {
    StepsWhole(RuleItem.steps, s, 0, []);
    assert s[0..2] == "ab";
    LitHit(RuleItem.steps, 0, "ab", s, 0, [], [Token("ab")]);
    assert s[2..3] == "c";
    LitHit(RuleItem.steps, 1, "c", s, 2, [Token("ab")], [Token("ab"), Token("c")]);
    StepsDone(RuleItem.steps, s, 3, [Token("ab"), Token("c")]);
  }

  lemma RuleSepListRecoverLimitStep2()
    ensures Resume(RuleSepList, "abc,,abd;abc!!!", AtTerminator, 3, 1, [Token("ab"), Token("c")]) == Outcome(false, 8, [Token("ab"), Token("c"), Token(","), Token(","), Token("ab"), ExpectedLiteral(7, "c", 0), Recovery, ErrorToken("d"), Cancel], Count(1))
  {
    var s := "abc,,abd;abc!!!";
    assert s[3..3] == "";
    assert "!!!"[..0] == "";
    Miss("!!!", s, 3, 0, "");
    RuleSepListRecoverLimitStep3();
  }

  lemma RuleSepListRecoverLimitStep3()
    ensures Resume(RuleSepList, "abc,,abd;abc!!!", AtSeparator, 3, 1, [Token("ab"), Token("c")]) == Outcome(false, 8, [Token("ab"), Token("c"), Token(","), Token(","), Token("ab"), ExpectedLiteral(7, "c", 0), Recovery, ErrorToken("d"), Cancel], Count(1))
  {
    var s := "abc,,abd;abc!!!";
    RuleSepListRecoverLimitStep3Part0(s);
    assert s[5..5] == "";
    assert "!!!"[..0] == "";
    Miss("!!!", s, 5, 0, "");
    RuleSepListRecoverLimitStep4();
  }

  lemma RuleSepListRecoverLimitStep3Part0(s: string)
    requires s == "abc,,abd;abc!!!"
    ensures StepsF(DoubleComma.steps, s, 3, [Token("ab"), Token("c")]) == Outcome(true, 5, [Token("ab"), Token("c"), Token(","), Token(",")], NoValue)
  {
    StepsWhole(DoubleComma.steps, s, 3, [Token("ab"), Token("c")]);
    assert s[3..4] == ",";
    LitHit(DoubleComma.steps, 0, ",", s, 3, [Token("ab"), Token("c")], [Token("ab"), Token("c"), Token(",")]);
    assert s[4..5] == ",";
    LitHit(DoubleComma.steps, 1, ",", s, 4, [Token("ab"), Token("c"), Token(",")], [Token("ab"), Token("c"), Token(","), Token(",")]);
    StepsDone(DoubleComma.steps, s, 5, [Token("ab"), Token("c"), Token(","), Token(",")]);
  }

  lemma RuleSepListRecoverLimitStep4()
    ensures Resume(RuleSepList, "abc,,abd;abc!!!", AtItem, 5, 1, [Token("ab"), Token("c"), Token(","), Token(",")]) == Outcome(false, 8, [Token("ab"), Token("c"), Token(","), Token(","), Token("ab"), ExpectedLiteral(7, "c", 0), Recovery, ErrorToken("d"), Cancel], Count(1))
  {
    var s := "abc,,abd;abc!!!";
    assert s[5..7] == "ab";
    Hit("ab", s, 5);
    RuleSepListRecoverLimitStep4Part0(s);
    RuleSepListRecoverLimitStep5();
  }

  lemma RuleSepListRecoverLimitStep4Part0(s: string)
    requires s == "abc,,abd;abc!!!"
    ensures StepsF(RuleItem.steps, s, 5, [Token("ab"), Token("c"), Token(","), Token(",")]) == Outcome(false, 7, [Token("ab"), Token("c"), Token(","), Token(","), Token("ab"), ExpectedLiteral(7, "c", 0)], NoValue)
  {
    StepsWhole(RuleItem.steps, s, 5, [Token("ab"), Token("c"), Token(","), Token(",")]);
    assert s[5..7] == "ab";
    LitHit(RuleItem.steps, 0, "ab", s, 5, [Token("ab"), Token("c"), Token(","), Token(",")], [Token("ab"), Token("c"), Token(","), Token(","), Token("ab")]);
    assert s[7..7] == "";
    assert "c"[..0] == "";
    LitMiss(RuleItem.steps, 1, "c", s, 7, 0, "", [Token("ab"), Token("c"), Token(","), Token(","), Token("ab")], [Token("ab"), Token("c"), Token(","), Token(","), Token("ab"), ExpectedLiteral(7, "c", 0)]);
  }

  lemma RuleSepListRecoverLimitStep5()
    ensures Resume(RuleSepList, "abc,,abd;abc!!!", AtRecovery, 7, 1, [Token("ab"), Token("c"), Token(","), Token(","), Token("ab"), ExpectedLiteral(7, "c", 0)]) == Outcome(false, 8, [Token("ab"), Token("c"), Token(","), Token(","), Token("ab"), ExpectedLiteral(7, "c", 0), Recovery, ErrorToken("d"), Cancel], Count(1))
  {
    var s := "abc,,abd;abc!!!";
    assert ListStops(RuleSepList) == ["!!!", ","];
    assert s[7..7] == "";
    assert "!!!"[..0] == "";
    Miss("!!!", s, 7, 0, "");
    assert s[7..7] == "";
    assert ","[..0] == "";
    Miss(",", s, 7, 0, "");
    Any2("!!!", ",", s, 7);
    assert s[7..7] == "";
    assert ";"[..0] == "";
    Miss(";", s, 7, 0, "");
    Any1(";", s, 7);
    ResyncNext(ListStops(RuleSepList), RuleSepList.term.limits, s, 7);
    assert s[8..8] == "";
    assert "!!!"[..0] == "";
    Miss("!!!", s, 8, 0, "");
    assert s[8..8] == "";
    assert ","[..0] == "";
    Miss(",", s, 8, 0, "");
    Any2("!!!", ",", s, 8);
    assert s[8..9] == ";";
    Hit(";", s, 8);
    Any1(";", s, 8);
    ResyncHere(ListStops(RuleSepList), RuleSepList.term.limits, s, 8);
    RuleSepListRecoverLimitStep5Part0(s);
  }

  lemma RuleSepListRecoverLimitStep5Part0(s: string)
    requires s == "abc,,abd;abc!!!"
    ensures Skip(s, 7, 8, [Token("ab"), Token("c"), Token(","), Token(","), Token("ab"), ExpectedLiteral(7, "c", 0)] + [Recovery]) == [Token("ab"), Token("c"), Token(","), Token(","), Token("ab"), ExpectedLiteral(7, "c", 0), Recovery, ErrorToken("d")]
  {
    SkipStep(s, 7, 8, [Token("ab"), Token("c"), Token(","), Token(","), Token("ab"), ExpectedLiteral(7, "c", 0)] + [Recovery], [Token("ab"), Token("c"), Token(","), Token(","), Token("ab"), ExpectedLiteral(7, "c", 0), Recovery, ErrorToken("d")]);
    SkipDone(s, 8, [Token("ab"), Token("c"), Token(","), Token(","), Token("ab"), ExpectedLiteral(7, "c", 0), Recovery, ErrorToken("d")]);
  }

  lemma RuleSepListRecoverLimitVerdict()
    ensures Verify(Outcome(false, 8, [Token("ab"), Token("c"), Token(","), Token(","), Token("ab"), ExpectedLiteral(7, "c", 0), Recovery, ErrorToken("d"), Cancel], Count(1))) == TestResult(FatalError, Count(1), [Token("ab"), Token("c"), Token(","), Token(","), Token("ab"), ExpectedLiteral(7, "c", 0), Recovery, ErrorToken("d"), Cancel, Cancel])
  {
    VerifyFatal(Outcome(false, 8, [Token("ab"), Token("c"), Token(","), Token(","), Token("ab"), ExpectedLiteral(7, "c", 0), Recovery, ErrorToken("d"), Cancel], Count(1)), [Token("ab"), Token("c"), Token(","), Token(","), Token("ab"), ExpectedLiteral(7, "c", 0), Recovery, ErrorToken("d"), Cancel, Cancel]);
  }

  /** `.list(branch, trailing_sep)` on "abc,,abc,,!!!": success. */
  lemma BranchTrailingListTrailing()
    ensures Verify(ListF(BranchTrailingList, "abc,,abc,,!!!", 0, [])) == TestResult(Success, Count(2), [Token("ab"), Token("c"), Token(","), Token(","), Token("ab"), Token("c"), Token(","), Token(","), Token("!!!"), Position])
  {
    BranchTrailingListTrailingStep0();
    BranchTrailingListTrailingVerdict();
  }

  lemma BranchTrailingListTrailingStep0()
    ensures ListF(BranchTrailingList, "abc,,abc,,!!!", 0, []) == Outcome(true, 13, [Token("ab"), Token("c"), Token(","), Token(","), Token("ab"), Token("c"), Token(","), Token(","), Token("!!!"), Position], Count(2))
  {
    var s := "abc,,abc,,!!!";
    BranchTrailingListTrailingStep1();
  }

  lemma BranchTrailingListTrailingStep1()
    ensures Resume(BranchTrailingList, "abc,,abc,,!!!", AtItem, 0, 0, []) == Outcome(true, 13, [Token("ab"), Token("c"), Token(","), Token(","), Token("ab"), Token("c"), Token(","), Token(","), Token("!!!"), Position], Count(2))
  {
    var s := "abc,,abc,,!!!";
    assert s[0..2] == "ab";
    Hit("ab", s, 0);
    BranchTrailingListTrailingStep1Part0(s);
    BranchTrailingListTrailingStep2();
  }

  lemma BranchTrailingListTrailingStep1Part0(s: string)
    requires s == "abc,,abc,,!!!"
    ensures StepsF(BranchItem.steps, s, 0, []) == Outcome(true, 3, [Token("ab"), Token("c")], NoValue)
  {
    StepsWhole(BranchItem.steps, s, 0, []);
    assert s[0..2] == "ab";
    LitHit(BranchItem.steps, 0, "ab", s, 0, [], [Token("ab")]);
    assert s[2..3] == "c";
    LitHit(BranchItem.steps, 1, "c", s, 2, [Token("ab")], [Token("ab"), Token("c")]);
    StepsDone(BranchItem.steps, s, 3, [Token("ab"), Token("c")]);
  }

  lemma BranchTrailingListTrailingStep2()
    ensures Resume(BranchTrailingList, "abc,,abc,,!!!", AtTerminator, 3, 1, [Token("ab"), Token("c")]) == Outcome(true, 13, [Token("ab"), Token("c"), Token(","), Token(","), Token("ab"), Token("c"), Token(","), Token(","), Token("!!!"), Position], Count(2))
  {
    var s := "abc,,abc,,!!!";
    assert s[3..3] == "";
    assert "!!!"[..0] == "";
    Miss("!!!", s, 3, 0, "");
    BranchTrailingListTrailingStep3();
  }

  lemma BranchTrailingListTrailingStep3()
    ensures Resume(BranchTrailingList, "abc,,abc,,!!!", AtSeparator, 3, 1, [Token("ab"), Token("c")]) == Outcome(true, 13, [Token("ab"), Token("c"), Token(","), Token(","), Token("ab"), Token("c"), Token(","), Token(","), Token("!!!"), Position], Count(2))
  {
    var s := "abc,,abc,,!!!";
    BranchTrailingListTrailingStep3Part0(s);
    assert s[5..5] == "";
    assert "!!!"[..0] == "";
    Miss("!!!", s, 5, 0, "");
    BranchTrailingListTrailingStep4();
  }

  lemma BranchTrailingListTrailingStep3Part0(s: string)
    requires s == "abc,,abc,,!!!"
    ensures StepsF(DoubleComma.steps, s, 3, [Token("ab"), Token("c")]) == Outcome(true, 5, [Token("ab"), Token("c"), Token(","), Token(",")], NoValue)
  {
    StepsWhole(DoubleComma.steps, s, 3, [Token("ab"), Token("c")]);
    assert s[3..4] == ",";
    LitHit(DoubleComma.steps, 0, ",", s, 3, [Token("ab"), Token("c")], [Token("ab"), Token("c"), Token(",")]);
    assert s[4..5] == ",";
    LitHit(DoubleComma.steps, 1, ",", s, 4, [Token("ab"), Token("c"), Token(",")], [Token("ab"), Token("c"), Token(","), Token(",")]);
    StepsDone(DoubleComma.steps, s, 5, [Token("ab"), Token("c"), Token(","), Token(",")]);
  }

  lemma BranchTrailingListTrailingStep4()
    ensures Resume(BranchTrailingList, "abc,,abc,,!!!", AtItem, 5, 1, [Token("ab"), Token("c"), Token(","), Token(",")]) == Outcome(true, 13, [Token("ab"), Token("c"), Token(","), Token(","), Token("ab"), Token("c"), Token(","), Token(","), Token("!!!"), Position], Count(2))
  {
    var s := "abc,,abc,,!!!";
    assert s[5..7] == "ab";
    Hit("ab", s, 5);
    BranchTrailingListTrailingStep4Part0(s);
    BranchTrailingListTrailingStep5();
  }

  lemma BranchTrailingListTrailingStep4Part0(s: string)
    requires s == "abc,,abc,,!!!"
    ensures StepsF(BranchItem.steps, s, 5, [Token("ab"), Token("c"), Token(","), Token(",")]) == Outcome(true, 8, [Token("ab"), Token("c"), Token(","), Token(","), Token("ab"), Token("c")], NoValue)
  {
    StepsWhole(BranchItem.steps, s, 5, [Token("ab"), Token("c"), Token(","), Token(",")]);
    assert s[5..7] == "ab";
    LitHit(BranchItem.steps, 0, "ab", s, 5, [Token("ab"), Token("c"), Token(","), Token(",")], [Token("ab"), Token("c"), Token(","), Token(","), Token("ab")]);
    assert s[7..8] == "c";
    LitHit(BranchItem.steps, 1, "c", s, 7, [Token("ab"), Token("c"), Token(","), Token(","), Token("ab")], [Token("ab"), Token("c"), Token(","), Token(","), Token("ab"), Token("c")]);
    StepsDone(BranchItem.steps, s, 8, [Token("ab"), Token("c"), Token(","), Token(","), Token("ab"), Token("c")]);
  }

  lemma BranchTrailingListTrailingStep5()
    ensures Resume(BranchTrailingList, "abc,,abc,,!!!", AtTerminator, 8, 2, [Token("ab"), Token("c"), Token(","), Token(","), Token("ab"), Token("c")]) == Outcome(true, 13, [Token("ab"), Token("c"), Token(","), Token(","), Token("ab"), Token("c"), Token(","), Token(","), Token("!!!"), Position], Count(2))
  {
    var s := "abc,,abc,,!!!";
    assert s[8..8] == "";
    assert "!!!"[..0] == "";
    Miss("!!!", s, 8, 0, "");
    BranchTrailingListTrailingStep6();
  }

  lemma BranchTrailingListTrailingStep6()
    ensures Resume(BranchTrailingList, "abc,,abc,,!!!", AtSeparator, 8, 2, [Token("ab"), Token("c"), Token(","), Token(","), Token("ab"), Token("c")]) == Outcome(true, 13, [Token("ab"), Token("c"), Token(","), Token(","), Token("ab"), Token("c"), Token(","), Token(","), Token("!!!"), Position], Count(2))
  {
    var s := "abc,,abc,,!!!";
    BranchTrailingListTrailingStep6Part0(s);
    assert s[10..13] == "!!!";
    Hit("!!!", s, 10);
    BranchTrailingListTrailingStep6Part1(s);
    SepThenTerm(BranchTrailingList, s, 8, 2, [Token("ab"), Token("c"), Token(","), Token(","), Token("ab"), Token("c")], Outcome(true, 10, [Token("ab"), Token("c"), Token(","), Token(","), Token("ab"), Token("c"), Token(","), Token(",")], NoValue), [Token("ab"), Token("c"), Token(","), Token(","), Token("ab"), Token("c"), Token(","), Token(",")], Outcome(true, 13, [Token("ab"), Token("c"), Token(","), Token(","), Token("ab"), Token("c"), Token(","), Token(","), Token("!!!"), Position], NoValue));
  }

  lemma BranchTrailingListTrailingStep6Part0(s: string)
    requires s == "abc,,abc,,!!!"
    ensures StepsF(DoubleComma.steps, s, 8, [Token("ab"), Token("c"), Token(","), Token(","), Token("ab"), Token("c")]) == Outcome(true, 10, [Token("ab"), Token("c"), Token(","), Token(","), Token("ab"), Token("c"), Token(","), Token(",")], NoValue)
  {
    StepsWhole(DoubleComma.steps, s, 8, [Token("ab"), Token("c"), Token(","), Token(","), Token("ab"), Token("c")]);
    assert s[8..9] == ",";
    LitHit(DoubleComma.steps, 0, ",", s, 8, [Token("ab"), Token("c"), Token(","), Token(","), Token("ab"), Token("c")], [Token("ab"), Token("c"), Token(","), Token(","), Token("ab"), Token("c"), Token(",")]);
    assert s[9..10] == ",";
    LitHit(DoubleComma.steps, 1, ",", s, 9, [Token("ab"), Token("c"), Token(","), Token(","), Token("ab"), Token("c"), Token(",")], [Token("ab"), Token("c"), Token(","), Token(","), Token("ab"), Token("c"), Token(","), Token(",")]);
    StepsDone(DoubleComma.steps, s, 10, [Token("ab"), Token("c"), Token(","), Token(","), Token("ab"), Token("c"), Token(","), Token(",")]);
  }

  lemma BranchTrailingListTrailingStep6Part1(s: string)
    requires s == "abc,,abc,,!!!"
    ensures StepsF(TermRule(TestTerm).steps, s, 10, [Token("ab"), Token("c"), Token(","), Token(","), Token("ab"), Token("c"), Token(","), Token(",")]) == Outcome(true, 13, [Token("ab"), Token("c"), Token(","), Token(","), Token("ab"), Token("c"), Token(","), Token(","), Token("!!!"), Position], NoValue)
  {
    StepsWhole(TermRule(TestTerm).steps, s, 10, [Token("ab"), Token("c"), Token(","), Token(","), Token("ab"), Token("c"), Token(","), Token(",")]);
    assert s[10..13] == "!!!";
    LitHit(TermRule(TestTerm).steps, 0, "!!!", s, 10, [Token("ab"), Token("c"), Token(","), Token(","), Token("ab"), Token("c"), Token(","), Token(",")], [Token("ab"), Token("c"), Token(","), Token(","), Token("ab"), Token("c"), Token(","), Token(","), Token("!!!")]);
    PosStep(TermRule(TestTerm).steps, 1, s, 13, [Token("ab"), Token("c"), Token(","), Token(","), Token("ab"), Token("c"), Token(","), Token(","), Token("!!!")], [Token("ab"), Token("c"), Token(","), Token(","), Token("ab"), Token("c"), Token(","), Token(","), Token("!!!"), Position]);
    StepsDone(TermRule(TestTerm).steps, s, 13, [Token("ab"), Token("c"), Token(","), Token(","), Token("ab"), Token("c"), Token(","), Token(","), Token("!!!"), Position]);
  }

  lemma BranchTrailingListTrailingVerdict()
    ensures Verify(Outcome(true, 13, [Token("ab"), Token("c"), Token(","), Token(","), Token("ab"), Token("c"), Token(","), Token(","), Token("!!!"), Position], Count(2))) == TestResult(Success, Count(2), [Token("ab"), Token("c"), Token(","), Token(","), Token("ab"), Token("c"), Token(","), Token(","), Token("!!!"), Position])
  {
    VerifySuccess(Outcome(true, 13, [Token("ab"), Token("c"), Token(","), Token(","), Token("ab"), Token("c"), Token(","), Token(","), Token("!!!"), Position], Count(2)));
  }

  /** `.list(branch, trailing_sep)` on "". */
  lemma BranchTrailingListEmpty()
    ensures Verify(ListF(BranchTrailingList, "", 0, [])) == TestResult(FatalError, Count(0), [ExpectedLiteral(0, "ab", 0), Recovery, Cancel, Cancel])
  {
    BranchTrailingListEmptyStep0();
    BranchTrailingListEmptyVerdict();
  }

  lemma BranchTrailingListEmptyStep0()
    ensures ListF(BranchTrailingList, "", 0, []) == Outcome(false, 0, [ExpectedLiteral(0, "ab", 0), Recovery, Cancel], Count(0))
  {
    var s := "";
    BranchTrailingListEmptyStep1();
  }

  lemma BranchTrailingListEmptyStep1()
    ensures Resume(BranchTrailingList, "", AtItem, 0, 0, []) == Outcome(false, 0, [ExpectedLiteral(0, "ab", 0), Recovery, Cancel], Count(0))
  {
    var s := "";
    assert s[0..0] == "";
    assert "ab"[..0] == "";
    Miss("ab", s, 0, 0, "");
    BranchTrailingListEmptyStep1Part0(s);
    BranchTrailingListEmptyStep2();
  }

  lemma BranchTrailingListEmptyStep1Part0(s: string)
    requires s == ""
    ensures StepsF(BranchItem.steps, s, 0, []) == Outcome(false, 0, [ExpectedLiteral(0, "ab", 0)], NoValue)
  {
    StepsWhole(BranchItem.steps, s, 0, []);
    assert s[0..0] == "";
    assert "ab"[..0] == "";
    LitMiss(BranchItem.steps, 0, "ab", s, 0, 0, "", [], [ExpectedLiteral(0, "ab", 0)]);
  }

  lemma BranchTrailingListEmptyStep2()
    ensures Resume(BranchTrailingList, "", AtRecovery, 0, 0, [ExpectedLiteral(0, "ab", 0)]) == Outcome(false, 0, [ExpectedLiteral(0, "ab", 0), Recovery, Cancel], Count(0))
  {
    var s := "";
    assert ListStops(BranchTrailingList) == ["!!!", ","];
    assert s[0..0] == "";
    assert "!!!"[..0] == "";
    Miss("!!!", s, 0, 0, "");
    assert s[0..0] == "";
    assert ","[..0] == "";
    Miss(",", s, 0, 0, "");
    Any2("!!!", ",", s, 0);
    ResyncHere(ListStops(BranchTrailingList), BranchTrailingList.term.limits, s, 0);
    BranchTrailingListEmptyStep2Part0(s);
  }

  lemma BranchTrailingListEmptyStep2Part0(s: string)
    requires s == ""
    ensures Skip(s, 0, 0, [ExpectedLiteral(0, "ab", 0)] + [Recovery]) == [ExpectedLiteral(0, "ab", 0), Recovery]
  {
    SkipDone(s, 0, [ExpectedLiteral(0, "ab", 0)] + [Recovery]);
  }

  lemma BranchTrailingListEmptyVerdict()
    ensures Verify(Outcome(false, 0, [ExpectedLiteral(0, "ab", 0), Recovery, Cancel], Count(0))) == TestResult(FatalError, Count(0), [ExpectedLiteral(0, "ab", 0), Recovery, Cancel, Cancel])
  {
    VerifyFatal(Outcome(false, 0, [ExpectedLiteral(0, "ab", 0), Recovery, Cancel], Count(0)), [ExpectedLiteral(0, "ab", 0), Recovery, Cancel, Cancel]);
  }

  /** `.opt_list(branch)` on "". */
  lemma OptListEmpty()
    ensures Verify(OptListF(BranchList, "", 0, [])) == TestResult(FatalError, Count(0), [ExpectedLiteral(0, "ab", 0), Recovery, Cancel, Cancel])
  {
    OptListEmptyStep0();
    OptListEmptyVerdict();
  }

  lemma OptListEmptyStep0()
    ensures OptListF(BranchList, "", 0, []) == Outcome(false, 0, [ExpectedLiteral(0, "ab", 0), Recovery, Cancel], Count(0))
  {
    var s := "";
    assert s[0..0] == "";
    assert "!!!"[..0] == "";
    Miss("!!!", s, 0, 0, "");
    assert ListF(BranchList, s, 0, []) == Resume(BranchList, s, AtItem, 0, 0, []);
    OptListEmptyStep1();
  }

  lemma OptListEmptyStep1()
    ensures Resume(BranchList, "", AtItem, 0, 0, []) == Outcome(false, 0, [ExpectedLiteral(0, "ab", 0), Recovery, Cancel], Count(0))
  {
    var s := "";
    assert s[0..0] == "";
    assert "ab"[..0] == "";
    Miss("ab", s, 0, 0, "");
    OptListEmptyStep1Part0(s);
    OptListEmptyStep2();
  }

  lemma OptListEmptyStep1Part0(s: string)
    requires s == ""
    ensures StepsF(BranchItem.steps, s, 0, []) == Outcome(false, 0, [ExpectedLiteral(0, "ab", 0)], NoValue)
  {
    StepsWhole(BranchItem.steps, s, 0, []);
    assert s[0..0] == "";
    assert "ab"[..0] == "";
    LitMiss(BranchItem.steps, 0, "ab", s, 0, 0, "", [], [ExpectedLiteral(0, "ab", 0)]);
  }

  lemma OptListEmptyStep2()
    ensures Resume(BranchList, "", AtRecovery, 0, 0, [ExpectedLiteral(0, "ab", 0)]) == Outcome(false, 0, [ExpectedLiteral(0, "ab", 0), Recovery, Cancel], Count(0))
  {
    var s := "";
    assert ListStops(BranchList) == ["!!!", "ab"];
    assert s[0..0] == "";
    assert "!!!"[..0] == "";
    Miss("!!!", s, 0, 0, "");
    assert s[0..0] == "";
    assert "ab"[..0] == "";
    Miss("ab", s, 0, 0, "");
    Any2("!!!", "ab", s, 0);
    ResyncHere(ListStops(BranchList), BranchList.term.limits, s, 0);
    OptListEmptyStep2Part0(s);
  }

  lemma OptListEmptyStep2Part0(s: string)
    requires s == ""
    ensures Skip(s, 0, 0, [ExpectedLiteral(0, "ab", 0)] + [Recovery]) == [ExpectedLiteral(0, "ab", 0), Recovery]
  {
    SkipDone(s, 0, [ExpectedLiteral(0, "ab", 0)] + [Recovery]);
  }

  lemma OptListEmptyVerdict()
    ensures Verify(Outcome(false, 0, [ExpectedLiteral(0, "ab", 0), Recovery, Cancel], Count(0))) == TestResult(FatalError, Count(0), [ExpectedLiteral(0, "ab", 0), Recovery, Cancel, Cancel])
  {
    VerifyFatal(Outcome(false, 0, [ExpectedLiteral(0, "ab", 0), Recovery, Cancel], Count(0)), [ExpectedLiteral(0, "ab", 0), Recovery, Cancel, Cancel]);
  }

  /** `.opt_list(branch)` on "!!!": an absent value and no error. */
  lemma OptListTerminatorOnly()
    ensures Verify(OptListF(BranchList, "!!!", 0, [])) == TestResult(Success, Nullopt, [Token("!!!"), Position])
  {
    OptListTerminatorOnlyStep0();
    OptListTerminatorOnlyVerdict();
  }

  lemma OptListTerminatorOnlyStep0()
    ensures OptListF(BranchList, "!!!", 0, []) == Outcome(true, 3, [Token("!!!"), Position], Nullopt)
  {
    var s := "!!!";
    assert s[0..3] == "!!!";
    Hit("!!!", s, 0);
    OptListTerminatorOnlyStep0Part0(s);
  }

  lemma OptListTerminatorOnlyStep0Part0(s: string)
    requires s == "!!!"
    ensures StepsF(TermRule(TestTerm).steps, s, 0, []) == Outcome(true, 3, [Token("!!!"), Position], NoValue)
  {
    StepsWhole(TermRule(TestTerm).steps, s, 0, []);
    assert s[0..3] == "!!!";
    LitHit(TermRule(TestTerm).steps, 0, "!!!", s, 0, [], [Token("!!!")]);
    PosStep(TermRule(TestTerm).steps, 1, s, 3, [Token("!!!")], [Token("!!!"), Position]);
    StepsDone(TermRule(TestTerm).steps, s, 3, [Token("!!!"), Position]);
  }

  lemma OptListTerminatorOnlyVerdict()
    ensures Verify(Outcome(true, 3, [Token("!!!"), Position], Nullopt)) == TestResult(Success, Nullopt, [Token("!!!"), Position])
  {
    VerifySuccess(Outcome(true, 3, [Token("!!!"), Position], Nullopt));
  }

  /** `.opt_list(branch)` on "abc!!!". */
  lemma OptListOne()
    ensures Verify(OptListF(BranchList, "abc!!!", 0, [])) == TestResult(Success, Count(1), [Token("ab"), Token("c"), Token("!!!"), Position])
  {
    OptListOneStep0();
    OptListOneVerdict();
  }

  lemma OptListOneStep0()
    ensures OptListF(BranchList, "abc!!!", 0, []) == Outcome(true, 6, [Token("ab"), Token("c"), Token("!!!"), Position], Count(1))
  {
    var s := "abc!!!";
    assert s[0..0] == "";
    assert "!!!"[..0] == "";
    Miss("!!!", s, 0, 0, "");
    assert ListF(BranchList, s, 0, []) == Resume(BranchList, s, AtItem, 0, 0, []);
    OptListOneStep1();
  }

  lemma OptListOneStep1()
    ensures Resume(BranchList, "abc!!!", AtItem, 0, 0, []) == Outcome(true, 6, [Token("ab"), Token("c"), Token("!!!"), Position], Count(1))
  {
    var s := "abc!!!";
    assert s[0..2] == "ab";
    Hit("ab", s, 0);
    OptListOneStep1Part0(s);
    OptListOneStep2();
  }

  lemma OptListOneStep1Part0(s: string)
    requires s == "abc!!!"
    ensures StepsF(BranchItem.steps, s, 0, []) == Outcome(true, 3, [Token("ab"), Token("c")], NoValue)
  {
    StepsWhole(BranchItem.steps, s, 0, []);
    assert s[0..2] == "ab";
    LitHit(BranchItem.steps, 0, "ab", s, 0, [], [Token("ab")]);
    assert s[2..3] == "c";
    LitHit(BranchItem.steps, 1, "c", s, 2, [Token("ab")], [Token("ab"), Token("c")]);
    StepsDone(BranchItem.steps, s, 3, [Token("ab"), Token("c")]);
  }

  lemma OptListOneStep2()
    ensures Resume(BranchList, "abc!!!", AtTerminator, 3, 1, [Token("ab"), Token("c")]) == Outcome(true, 6, [Token("ab"), Token("c"), Token("!!!"), Position], Count(1))
  {
    var s := "abc!!!";
    assert s[3..6] == "!!!";
    Hit("!!!", s, 3);
    OptListOneStep2Part0(s);
  }

  lemma OptListOneStep2Part0(s: string)
    requires s == "abc!!!"
    ensures StepsF(TermRule(TestTerm).steps, s, 3, [Token("ab"), Token("c")]) == Outcome(true, 6, [Token("ab"), Token("c"), Token("!!!"), Position], NoValue)
  {
    StepsWhole(TermRule(TestTerm).steps, s, 3, [Token("ab"), Token("c")]);
    assert s[3..6] == "!!!";
    LitHit(TermRule(TestTerm).steps, 0, "!!!", s, 3, [Token("ab"), Token("c")], [Token("ab"), Token("c"), Token("!!!")]);
    PosStep(TermRule(TestTerm).steps, 1, s, 6, [Token("ab"), Token("c"), Token("!!!")], [Token("ab"), Token("c"), Token("!!!"), Position]);
    StepsDone(TermRule(TestTerm).steps, s, 6, [Token("ab"), Token("c"), Token("!!!"), Position]);
  }

  lemma OptListOneVerdict()
    ensures Verify(Outcome(true, 6, [Token("ab"), Token("c"), Token("!!!"), Position], Count(1))) == TestResult(Success, Count(1), [Token("ab"), Token("c"), Token("!!!"), Position])
  {
    VerifySuccess(Outcome(true, 6, [Token("ab"), Token("c"), Token("!!!"), Position], Count(1)));
  }

  /** `.opt_list(branch)` on "abcabcabc!!!". */
  lemma OptListThree()
    ensures Verify(OptListF(BranchList, "abcabcabc!!!", 0, [])) == TestResult(Success, Count(3), [Token("ab"), Token("c"), Token("ab"), Token("c"), Token("ab"), Token("c"), Token("!!!"), Position])
  {
    OptListThreeStep0();
    OptListThreeVerdict();
  }

  lemma OptListThreeStep0()
    ensures OptListF(BranchList, "abcabcabc!!!", 0, []) == Outcome(true, 12, [Token("ab"), Token("c"), Token("ab"), Token("c"), Token("ab"), Token("c"), Token("!!!"), Position], Count(3))
  {
    var s := "abcabcabc!!!";
    assert s[0..0] == "";
    assert "!!!"[..0] == "";
    Miss("!!!", s, 0, 0, "");
    assert ListF(BranchList, s, 0, []) == Resume(BranchList, s, AtItem, 0, 0, []);
    OptListThreeStep1();
  }

  lemma OptListThreeStep1()
    ensures Resume(BranchList, "abcabcabc!!!", AtItem, 0, 0, []) == Outcome(true, 12, [Token("ab"), Token("c"), Token("ab"), Token("c"), Token("ab"), Token("c"), Token("!!!"), Position], Count(3))
  {
    var s := "abcabcabc!!!";
    assert s[0..2] == "ab";
    Hit("ab", s, 0);
    OptListThreeStep1Part0(s);
    OptListThreeStep2();
  }

  lemma OptListThreeStep1Part0(s: string)
    requires s == "abcabcabc!!!"
    ensures StepsF(BranchItem.steps, s, 0, []) == Outcome(true, 3, [Token("ab"), Token("c")], NoValue)
  {
    StepsWhole(BranchItem.steps, s, 0, []);
    assert s[0..2] == "ab";
    LitHit(BranchItem.steps, 0, "ab", s, 0, [], [Token("ab")]);
    assert s[2..3] == "c";
    LitHit(BranchItem.steps, 1, "c", s, 2, [Token("ab")], [Token("ab"), Token("c")]);
    StepsDone(BranchItem.steps, s, 3, [Token("ab"), Token("c")]);
  }

  lemma OptListThreeStep2()
    ensures Resume(BranchList, "abcabcabc!!!", AtTerminator, 3, 1, [Token("ab"), Token("c")]) == Outcome(true, 12, [Token("ab"), Token("c"), Token("ab"), Token("c"), Token("ab"), Token("c"), Token("!!!"), Position], Count(3))
  {
    var s := "abcabcabc!!!";
    assert s[3..3] == "";
    assert "!!!"[..0] == "";
    Miss("!!!", s, 3, 0, "");
    OptListThreeStep3();
  }

  lemma OptListThreeStep3()
    ensures Resume(BranchList, "abcabcabc!!!", AtSeparator, 3, 1, [Token("ab"), Token("c")]) == Outcome(true, 12, [Token("ab"), Token("c"), Token("ab"), Token("c"), Token("ab"), Token("c"), Token("!!!"), Position], Count(3))
  {
    var s := "abcabcabc!!!";
    OptListThreeStep4();
  }

  lemma OptListThreeStep4()
    ensures Resume(BranchList, "abcabcabc!!!", AtItem, 3, 1, [Token("ab"), Token("c")]) == Outcome(true, 12, [Token("ab"), Token("c"), Token("ab"), Token("c"), Token("ab"), Token("c"), Token("!!!"), Position], Count(3))
  {
    var s := "abcabcabc!!!";
    assert s[3..5] == "ab";
    Hit("ab", s, 3);
    OptListThreeStep4Part0(s);
    OptListThreeStep5();
  }

  lemma OptListThreeStep4Part0(s: string)
    requires s == "abcabcabc!!!"
    ensures StepsF(BranchItem.steps, s, 3, [Token("ab"), Token("c")]) == Outcome(true, 6, [Token("ab"), Token("c"), Token("ab"), Token("c")], NoValue)
  {
    StepsWhole(BranchItem.steps, s, 3, [Token("ab"), Token("c")]);
    assert s[3..5] == "ab";
    LitHit(BranchItem.steps, 0, "ab", s, 3, [Token("ab"), Token("c")], [Token("ab"), Token("c"), Token("ab")]);
    assert s[5..6] == "c";
    LitHit(BranchItem.steps, 1, "c", s, 5, [Token("ab"), Token("c"), Token("ab")], [Token("ab"), Token("c"), Token("ab"), Token("c")]);
    StepsDone(BranchItem.steps, s, 6, [Token("ab"), Token("c"), Token("ab"), Token("c")]);
  }

  lemma OptListThreeStep5()
    ensures Resume(BranchList, "abcabcabc!!!", AtTerminator, 6, 2, [Token("ab"), Token("c"), Token("ab"), Token("c")]) == Outcome(true, 12, [Token("ab"), Token("c"), Token("ab"), Token("c"), Token("ab"), Token("c"), Token("!!!"), Position], Count(3))
  {
    var s := "abcabcabc!!!";
    assert s[6..6] == "";
    assert "!!!"[..0] == "";
    Miss("!!!", s, 6, 0, "");
    OptListThreeStep6();
  }

  lemma OptListThreeStep6()
    ensures Resume(BranchList, "abcabcabc!!!", AtSeparator, 6, 2, [Token("ab"), Token("c"), Token("ab"), Token("c")]) == Outcome(true, 12, [Token("ab"), Token("c"), Token("ab"), Token("c"), Token("ab"), Token("c"), Token("!!!"), Position], Count(3))
  {
    var s := "abcabcabc!!!";
    OptListThreeStep7();
  }

  lemma OptListThreeStep7()
    ensures Resume(BranchList, "abcabcabc!!!", AtItem, 6, 2, [Token("ab"), Token("c"), Token("ab"), Token("c")]) == Outcome(true, 12, [Token("ab"), Token("c"), Token("ab"), Token("c"), Token("ab"), Token("c"), Token("!!!"), Position], Count(3))
  {
    var s := "abcabcabc!!!";
    assert s[6..8] == "ab";
    Hit("ab", s, 6);
    OptListThreeStep7Part0(s);
    OptListThreeStep8();
  }

  lemma OptListThreeStep7Part0(s: string)
    requires s == "abcabcabc!!!"
    ensures StepsF(BranchItem.steps, s, 6, [Token("ab"), Token("c"), Token("ab"), Token("c")]) == Outcome(true, 9, [Token("ab"), Token("c"), Token("ab"), Token("c"), Token("ab"), Token("c")], NoValue)
  {
    StepsWhole(BranchItem.steps, s, 6, [Token("ab"), Token("c"), Token("ab"), Token("c")]);
    assert s[6..8] == "ab";
    LitHit(BranchItem.steps, 0, "ab", s, 6, [Token("ab"), Token("c"), Token("ab"), Token("c")], [Token("ab"), Token("c"), Token("ab"), Token("c"), Token("ab")]);
    assert s[8..9] == "c";
    LitHit(BranchItem.steps, 1, "c", s, 8, [Token("ab"), Token("c"), Token("ab"), Token("c"), Token("ab")], [Token("ab"), Token("c"), Token("ab"), Token("c"), Token("ab"), Token("c")]);
    StepsDone(BranchItem.steps, s, 9, [Token("ab"), Token("c"), Token("ab"), Token("c"), Token("ab"), Token("c")]);
  }

  lemma OptListThreeStep8()
    ensures Resume(BranchList, "abcabcabc!!!", AtTerminator, 9, 3, [Token("ab"), Token("c"), Token("ab"), Token("c"), Token("ab"), Token("c")]) == Outcome(true, 12, [Token("ab"), Token("c"), Token("ab"), Token("c"), Token("ab"), Token("c"), Token("!!!"), Position], Count(3))
  {
    var s := "abcabcabc!!!";
    assert s[9..12] == "!!!";
    Hit("!!!", s, 9);
    OptListThreeStep8Part0(s);
  }

  lemma OptListThreeStep8Part0(s: string)
    requires s == "abcabcabc!!!"
    ensures StepsF(TermRule(TestTerm).steps, s, 9, [Token("ab"), Token("c"), Token("ab"), Token("c"), Token("ab"), Token("c")]) == Outcome(true, 12, [Token("ab"), Token("c"), Token("ab"), Token("c"), Token("ab"), Token("c"), Token("!!!"), Position], NoValue)
  {
    StepsWhole(TermRule(TestTerm).steps, s, 9, [Token("ab"), Token("c"), Token("ab"), Token("c"), Token("ab"), Token("c")]);
    assert s[9..12] == "!!!";
    LitHit(TermRule(TestTerm).steps, 0, "!!!", s, 9, [Token("ab"), Token("c"), Token("ab"), Token("c"), Token("ab"), Token("c")], [Token("ab"), Token("c"), Token("ab"), Token("c"), Token("ab"), Token("c"), Token("!!!")]);
    PosStep(TermRule(TestTerm).steps, 1, s, 12, [Token("ab"), Token("c"), Token("ab"), Token("c"), Token("ab"), Token("c"), Token("!!!")], [Token("ab"), Token("c"), Token("ab"), Token("c"), Token("ab"), Token("c"), Token("!!!"), Position]);
    StepsDone(TermRule(TestTerm).steps, s, 12, [Token("ab"), Token("c"), Token("ab"), Token("c"), Token("ab"), Token("c"), Token("!!!"), Position]);
  }

  lemma OptListThreeVerdict()
    ensures Verify(Outcome(true, 12, [Token("ab"), Token("c"), Token("ab"), Token("c"), Token("ab"), Token("c"), Token("!!!"), Position], Count(3))) == TestResult(Success, Count(3), [Token("ab"), Token("c"), Token("ab"), Token("c"), Token("ab"), Token("c"), Token("!!!"), Position])
  {
    VerifySuccess(Outcome(true, 12, [Token("ab"), Token("c"), Token("ab"), Token("c"), Token("ab"), Token("c"), Token("!!!"), Position], Count(3)));
  }

  /** `.opt_list(branch)` on "abd!!!". */
  lemma OptListRecover()
    ensures Verify(OptListF(BranchList, "abd!!!", 0, [])) == TestResult(RecoveredError, Count(0), [Token("ab"), ExpectedLiteral(2, "c", 0), Recovery, ErrorToken("d"), Finish, Token("!!!"), Position])
  {
    OptListRecoverStep0();
    OptListRecoverVerdict();
  }

  lemma OptListRecoverStep0()
    ensures OptListF(BranchList, "abd!!!", 0, []) == Outcome(true, 6, [Token("ab"), ExpectedLiteral(2, "c", 0), Recovery, ErrorToken("d"), Finish, Token("!!!"), Position], Count(0))
  {
    var s := "abd!!!";
    assert s[0..0] == "";
    assert "!!!"[..0] == "";
    Miss("!!!", s, 0, 0, "");
    assert ListF(BranchList, s, 0, []) == Resume(BranchList, s, AtItem, 0, 0, []);
    OptListRecoverStep1();
  }

  lemma OptListRecoverStep1()
    ensures Resume(BranchList, "abd!!!", AtItem, 0, 0, []) == Outcome(true, 6, [Token("ab"), ExpectedLiteral(2, "c", 0), Recovery, ErrorToken("d"), Finish, Token("!!!"), Position], Count(0))
  {
    var s := "abd!!!";
    assert s[0..2] == "ab";
    Hit("ab", s, 0);
    OptListRecoverStep1Part0(s);
    OptListRecoverStep2();
  }

  lemma OptListRecoverStep1Part0(s: string)
    requires s == "abd!!!"
    ensures StepsF(BranchItem.steps, s, 0, []) == Outcome(false, 2, [Token("ab"), ExpectedLiteral(2, "c", 0)], NoValue)
  {
    StepsWhole(BranchItem.steps, s, 0, []);
    assert s[0..2] == "ab";
    LitHit(BranchItem.steps, 0, "ab", s, 0, [], [Token("ab")]);
    assert s[2..2] == "";
    assert "c"[..0] == "";
    LitMiss(BranchItem.steps, 1, "c", s, 2, 0, "", [Token("ab")], [Token("ab"), ExpectedLiteral(2, "c", 0)]);
  }

  lemma OptListRecoverStep2()
    ensures Resume(BranchList, "abd!!!", AtRecovery, 2, 0, [Token("ab"), ExpectedLiteral(2, "c", 0)]) == Outcome(true, 6, [Token("ab"), ExpectedLiteral(2, "c", 0), Recovery, ErrorToken("d"), Finish, Token("!!!"), Position], Count(0))
  {
    var s := "abd!!!";
    assert ListStops(BranchList) == ["!!!", "ab"];
    assert s[2..2] == "";
    assert "!!!"[..0] == "";
    Miss("!!!", s, 2, 0, "");
    assert s[2..2] == "";
    assert "ab"[..0] == "";
    Miss("ab", s, 2, 0, "");
    Any2("!!!", "ab", s, 2);
    assert s[2..2] == "";
    assert ";"[..0] == "";
    Miss(";", s, 2, 0, "");
    Any1(";", s, 2);
    ResyncNext(ListStops(BranchList), BranchList.term.limits, s, 2);
    assert s[3..6] == "!!!";
    Hit("!!!", s, 3);
    assert s[3..3] == "";
    assert "ab"[..0] == "";
    Miss("ab", s, 3, 0, "");
    Any2("!!!", "ab", s, 3);
    assert s[3..3] == "";
    assert ";"[..0] == "";
    Miss(";", s, 3, 0, "");
    Any1(";", s, 3);
    ResyncHere(ListStops(BranchList), BranchList.term.limits, s, 3);
    OptListRecoverStep2Part0(s);
    OptListRecoverStep2Part1(s);
  }

  lemma OptListRecoverStep2Part0(s: string)
    requires s == "abd!!!"
    ensures Skip(s, 2, 3, [Token("ab"), ExpectedLiteral(2, "c", 0)] + [Recovery]) == [Token("ab"), ExpectedLiteral(2, "c", 0), Recovery, ErrorToken("d")]
  {
    SkipStep(s, 2, 3, [Token("ab"), ExpectedLiteral(2, "c", 0)] + [Recovery], [Token("ab"), ExpectedLiteral(2, "c", 0), Recovery, ErrorToken("d")]);
    SkipDone(s, 3, [Token("ab"), ExpectedLiteral(2, "c", 0), Recovery, ErrorToken("d")]);
  }

  lemma OptListRecoverStep2Part1(s: string)
    requires s == "abd!!!"
    ensures StepsF(TermRule(TestTerm).steps, s, 3, [Token("ab"), ExpectedLiteral(2, "c", 0), Recovery, ErrorToken("d")] + [Finish]) == Outcome(true, 6, [Token("ab"), ExpectedLiteral(2, "c", 0), Recovery, ErrorToken("d"), Finish, Token("!!!"), Position], NoValue)
  {
    StepsWhole(TermRule(TestTerm).steps, s, 3, [Token("ab"), ExpectedLiteral(2, "c", 0), Recovery, ErrorToken("d")] + [Finish]);
    assert s[3..6] == "!!!";
    LitHit(TermRule(TestTerm).steps, 0, "!!!", s, 3, [Token("ab"), ExpectedLiteral(2, "c", 0), Recovery, ErrorToken("d")] + [Finish], [Token("ab"), ExpectedLiteral(2, "c", 0), Recovery, ErrorToken("d"), Finish, Token("!!!")]);
    PosStep(TermRule(TestTerm).steps, 1, s, 6, [Token("ab"), ExpectedLiteral(2, "c", 0), Recovery, ErrorToken("d"), Finish, Token("!!!")], [Token("ab"), ExpectedLiteral(2, "c", 0), Recovery, ErrorToken("d"), Finish, Token("!!!"), Position]);
    StepsDone(TermRule(TestTerm).steps, s, 6, [Token("ab"), ExpectedLiteral(2, "c", 0), Recovery, ErrorToken("d"), Finish, Token("!!!"), Position]);
  }

  lemma OptListRecoverVerdict()
    ensures Verify(Outcome(true, 6, [Token("ab"), ExpectedLiteral(2, "c", 0), Recovery, ErrorToken("d"), Finish, Token("!!!"), Position], Count(0))) == TestResult(RecoveredError, Count(0), [Token("ab"), ExpectedLiteral(2, "c", 0), Recovery, ErrorToken("d"), Finish, Token("!!!"), Position])
  {
    VerifyRecovered(Outcome(true, 6, [Token("ab"), ExpectedLiteral(2, "c", 0), Recovery, ErrorToken("d"), Finish, Token("!!!"), Position], Count(0)), 1);
  }

  /** `.opt_list(branch, sep)` on "". */
  lemma CommaListEmpty()
    ensures Verify(OptListF(CommaList, "", 0, [])) == TestResult(FatalError, Count(0), [ExpectedLiteral(0, "ab", 0), Recovery, Cancel, Cancel])
  {
    CommaListEmptyStep0();
    CommaListEmptyVerdict();
  }

  lemma CommaListEmptyStep0()
    ensures OptListF(CommaList, "", 0, []) == Outcome(false, 0, [ExpectedLiteral(0, "ab", 0), Recovery, Cancel], Count(0))
  {
    var s := "";
    assert s[0..0] == "";
    assert "!!!"[..0] == "";
    Miss("!!!", s, 0, 0, "");
    assert ListF(CommaList, s, 0, []) == Resume(CommaList, s, AtItem, 0, 0, []);
    CommaListEmptyStep1();
  }

  lemma CommaListEmptyStep1()
    ensures Resume(CommaList, "", AtItem, 0, 0, []) == Outcome(false, 0, [ExpectedLiteral(0, "ab", 0), Recovery, Cancel], Count(0))
  {
    var s := "";
    assert s[0..0] == "";
    assert "ab"[..0] == "";
    Miss("ab", s, 0, 0, "");
    CommaListEmptyStep1Part0(s);
    CommaListEmptyStep2();
  }

  lemma CommaListEmptyStep1Part0(s: string)
    requires s == ""
    ensures StepsF(BranchItem.steps, s, 0, []) == Outcome(false, 0, [ExpectedLiteral(0, "ab", 0)], NoValue)
  {
    StepsWhole(BranchItem.steps, s, 0, []);
    assert s[0..0] == "";
    assert "ab"[..0] == "";
    LitMiss(BranchItem.steps, 0, "ab", s, 0, 0, "", [], [ExpectedLiteral(0, "ab", 0)]);
  }

  lemma CommaListEmptyStep2()
    ensures Resume(CommaList, "", AtRecovery, 0, 0, [ExpectedLiteral(0, "ab", 0)]) == Outcome(false, 0, [ExpectedLiteral(0, "ab", 0), Recovery, Cancel], Count(0))
  {
    var s := "";
    assert ListStops(CommaList) == ["!!!", ","];
    assert s[0..0] == "";
    assert "!!!"[..0] == "";
    Miss("!!!", s, 0, 0, "");
    assert s[0..0] == "";
    assert ","[..0] == "";
    Miss(",", s, 0, 0, "");
    Any2("!!!", ",", s, 0);
    ResyncHere(ListStops(CommaList), CommaList.term.limits, s, 0);
    CommaListEmptyStep2Part0(s);
  }

  lemma CommaListEmptyStep2Part0(s: string)
    requires s == ""
    ensures Skip(s, 0, 0, [ExpectedLiteral(0, "ab", 0)] + [Recovery]) == [ExpectedLiteral(0, "ab", 0), Recovery]
  {
    SkipDone(s, 0, [ExpectedLiteral(0, "ab", 0)] + [Recovery]);
  }

  lemma CommaListEmptyVerdict()
    ensures Verify(Outcome(false, 0, [ExpectedLiteral(0, "ab", 0), Recovery, Cancel], Count(0))) == TestResult(FatalError, Count(0), [ExpectedLiteral(0, "ab", 0), Recovery, Cancel, Cancel])
  {
    VerifyFatal(Outcome(false, 0, [ExpectedLiteral(0, "ab", 0), Recovery, Cancel], Count(0)), [ExpectedLiteral(0, "ab", 0), Recovery, Cancel, Cancel]);
  }

  /** `.opt_list(branch, sep)` on "!!!": an absent value and no error. */
  lemma CommaListTerminatorOnly()
    ensures Verify(OptListF(CommaList, "!!!", 0, [])) == TestResult(Success, Nullopt, [Token("!!!"), Position])
  {
    CommaListTerminatorOnlyStep0();
    CommaListTerminatorOnlyVerdict();
  }

  lemma CommaListTerminatorOnlyStep0()
    ensures OptListF(CommaList, "!!!", 0, []) == Outcome(true, 3, [Token("!!!"), Position], Nullopt)
  {
    var s := "!!!";
    assert s[0..3] == "!!!";
    Hit("!!!", s, 0);
    CommaListTerminatorOnlyStep0Part0(s);
  }

  lemma CommaListTerminatorOnlyStep0Part0(s: string)
    requires s == "!!!"
    ensures StepsF(TermRule(TestTerm).steps, s, 0, []) == Outcome(true, 3, [Token("!!!"), Position], NoValue)
  {
    StepsWhole(TermRule(TestTerm).steps, s, 0, []);
    assert s[0..3] == "!!!";
    LitHit(TermRule(TestTerm).steps, 0, "!!!", s, 0, [], [Token("!!!")]);
    PosStep(TermRule(TestTerm).steps, 1, s, 3, [Token("!!!")], [Token("!!!"), Position]);
    StepsDone(TermRule(TestTerm).steps, s, 3, [Token("!!!"), Position]);
  }

  lemma CommaListTerminatorOnlyVerdict()
    ensures Verify(Outcome(true, 3, [Token("!!!"), Position], Nullopt)) == TestResult(Success, Nullopt, [Token("!!!"), Position])
  {
    VerifySuccess(Outcome(true, 3, [Token("!!!"), Position], Nullopt));
  }

  /** `.opt_list(branch, sep)` on "abc!!!". */
  lemma CommaListOne()
    ensures Verify(OptListF(CommaList, "abc!!!", 0, [])) == TestResult(Success, Count(1), [Token("ab"), Token("c"), Token("!!!"), Position])
  {
    CommaListOneStep0();
    CommaListOneVerdict();
  }

  lemma CommaListOneStep0()
    ensures OptListF(CommaList, "abc!!!", 0, []) == Outcome(true, 6, [Token("ab"), Token("c"), Token("!!!"), Position], Count(1))
  {
    var s := "abc!!!";
    assert s[0..0] == "";
    assert "!!!"[..0] == "";
    Miss("!!!", s, 0, 0, "");
    assert ListF(CommaList, s, 0, []) == Resume(CommaList, s, AtItem, 0, 0, []);
    CommaListOneStep1();
  }

  lemma CommaListOneStep1()
    ensures Resume(CommaList, "abc!!!", AtItem, 0, 0, []) == Outcome(true, 6, [Token("ab"), Token("c"), Token("!!!"), Position], Count(1))
  {
    var s := "abc!!!";
    assert s[0..2] == "ab";
    Hit("ab", s, 0);
    CommaListOneStep1Part0(s);
    CommaListOneStep2();
  }

  lemma CommaListOneStep1Part0(s: string)
    requires s == "abc!!!"
    ensures StepsF(BranchItem.steps, s, 0, []) == Outcome(true, 3, [Token("ab"), Token("c")], NoValue)
  {
    StepsWhole(BranchItem.steps, s, 0, []);
    assert s[0..2] == "ab";
    LitHit(BranchItem.steps, 0, "ab", s, 0, [], [Token("ab")]);
    assert s[2..3] == "c";
    LitHit(BranchItem.steps, 1, "c", s, 2, [Token("ab")], [Token("ab"), Token("c")]);
    StepsDone(BranchItem.steps, s, 3, [Token("ab"), Token("c")]);
  }

  lemma CommaListOneStep2()
    ensures Resume(CommaList, "abc!!!", AtTerminator, 3, 1, [Token("ab"), Token("c")]) == Outcome(true, 6, [Token("ab"), Token("c"), Token("!!!"), Position], Count(1))
  {
    var s := "abc!!!";
    assert s[3..6] == "!!!";
    Hit("!!!", s, 3);
    CommaListOneStep2Part0(s);
  }

  lemma CommaListOneStep2Part0(s: string)
    requires s == "abc!!!"
    ensures StepsF(TermRule(TestTerm).steps, s, 3, [Token("ab"), Token("c")]) == Outcome(true, 6, [Token("ab"), Token("c"), Token("!!!"), Position], NoValue)
  {
    StepsWhole(TermRule(TestTerm).steps, s, 3, [Token("ab"), Token("c")]);
    assert s[3..6] == "!!!";
    LitHit(TermRule(TestTerm).steps, 0, "!!!", s, 3, [Token("ab"), Token("c")], [Token("ab"), Token("c"), Token("!!!")]);
    PosStep(TermRule(TestTerm).steps, 1, s, 6, [Token("ab"), Token("c"), Token("!!!")], [Token("ab"), Token("c"), Token("!!!"), Position]);
    StepsDone(TermRule(TestTerm).steps, s, 6, [Token("ab"), Token("c"), Token("!!!"), Position]);
  }

  lemma CommaListOneVerdict()
    ensures Verify(Outcome(true, 6, [Token("ab"), Token("c"), Token("!!!"), Position], Count(1))) == TestResult(Success, Count(1), [Token("ab"), Token("c"), Token("!!!"), Position])
  {
    VerifySuccess(Outcome(true, 6, [Token("ab"), Token("c"), Token("!!!"), Position], Count(1)));
  }

  /** `.opt_list(branch, sep)` on "abc,abc,abc!!!". */
  lemma CommaListThree()
    ensures Verify(OptListF(CommaList, "abc,abc,abc!!!", 0, [])) == TestResult(Success, Count(3), [Token("ab"), Token("c"), Token(","), Token("ab"), Token("c"), Token(","), Token("ab"), Token("c"), Token("!!!"), Position])
  {
    CommaListThreeStep0();
    CommaListThreeVerdict();
  }

  lemma CommaListThreeStep0()
    ensures OptListF(CommaList, "abc,abc,abc!!!", 0, []) == Outcome(true, 14, [Token("ab"), Token("c"), Token(","), Token("ab"), Token("c"), Token(","), Token("ab"), Token("c"), Token("!!!"), Position], Count(3))
  {
    var s := "abc,abc,abc!!!";
    assert s[0..0] == "";
    assert "!!!"[..0] == "";
    Miss("!!!", s, 0, 0, "");
    assert ListF(CommaList, s, 0, []) == Resume(CommaList, s, AtItem, 0, 0, []);
    CommaListThreeStep1();
  }

  lemma CommaListThreeStep1()
    ensures Resume(CommaList, "abc,abc,abc!!!", AtItem, 0, 0, []) == Outcome(true, 14, [Token("ab"), Token("c"), Token(","), Token("ab"), Token("c"), Token(","), Token("ab"), Token("c"), Token("!!!"), Position], Count(3))
  {
    var s := "abc,abc,abc!!!";
    assert s[0..2] == "ab";
    Hit("ab", s, 0);
    CommaListThreeStep1Part0(s);
    CommaListThreeStep2();
  }

  lemma CommaListThreeStep1Part0(s: string)
    requires s == "abc,abc,abc!!!"
    ensures StepsF(BranchItem.steps, s, 0, []) == Outcome(true, 3, [Token("ab"), Token("c")], NoValue)
  {
    StepsWhole(BranchItem.steps, s, 0, []);
    assert s[0..2] == "ab";
    LitHit(BranchItem.steps, 0, "ab", s, 0, [], [Token("ab")]);
    assert s[2..3] == "c";
    LitHit(BranchItem.steps, 1, "c", s, 2, [Token("ab")], [Token("ab"), Token("c")]);
    StepsDone(BranchItem.steps, s, 3, [Token("ab"), Token("c")]);
  }

  lemma CommaListThreeStep2()
    ensures Resume(CommaList, "abc,abc,abc!!!", AtTerminator, 3, 1, [Token("ab"), Token("c")]) == Outcome(true, 14, [Token("ab"), Token("c"), Token(","), Token("ab"), Token("c"), Token(","), Token("ab"), Token("c"), Token("!!!"), Position], Count(3))
  {
    var s := "abc,abc,abc!!!";
    assert s[3..3] == "";
    assert "!!!"[..0] == "";
    Miss("!!!", s, 3, 0, "");
    CommaListThreeStep3();
  }

  lemma CommaListThreeStep3()
    ensures Resume(CommaList, "abc,abc,abc!!!", AtSeparator, 3, 1, [Token("ab"), Token("c")]) == Outcome(true, 14, [Token("ab"), Token("c"), Token(","), Token("ab"), Token("c"), Token(","), Token("ab"), Token("c"), Token("!!!"), Position], Count(3))
  {
    var s := "abc,abc,abc!!!";
    CommaListThreeStep3Part0(s);
    assert s[4..4] == "";
    assert "!!!"[..0] == "";
    Miss("!!!", s, 4, 0, "");
    CommaListThreeStep4();
  }

  lemma CommaListThreeStep3Part0(s: string)
    requires s == "abc,abc,abc!!!"
    ensures StepsF(Comma.steps, s, 3, [Token("ab"), Token("c")]) == Outcome(true, 4, [Token("ab"), Token("c"), Token(",")], NoValue)
  {
    StepsWhole(Comma.steps, s, 3, [Token("ab"), Token("c")]);
    assert s[3..4] == ",";
    LitHit(Comma.steps, 0, ",", s, 3, [Token("ab"), Token("c")], [Token("ab"), Token("c"), Token(",")]);
    StepsDone(Comma.steps, s, 4, [Token("ab"), Token("c"), Token(",")]);
  }

  lemma CommaListThreeStep4()
    ensures Resume(CommaList, "abc,abc,abc!!!", AtItem, 4, 1, [Token("ab"), Token("c"), Token(",")]) == Outcome(true, 14, [Token("ab"), Token("c"), Token(","), Token("ab"), Token("c"), Token(","), Token("ab"), Token("c"), Token("!!!"), Position], Count(3))
  {
    var s := "abc,abc,abc!!!";
    assert s[4..6] == "ab";
    Hit("ab", s, 4);
    CommaListThreeStep4Part0(s);
    CommaListThreeStep5();
  }

  lemma CommaListThreeStep4Part0(s: string)
    requires s == "abc,abc,abc!!!"
    ensures StepsF(BranchItem.steps, s, 4, [Token("ab"), Token("c"), Token(",")]) == Outcome(true, 7, [Token("ab"), Token("c"), Token(","), Token("ab"), Token("c")], NoValue)
  {
    StepsWhole(BranchItem.steps, s, 4, [Token("ab"), Token("c"), Token(",")]);
    assert s[4..6] == "ab";
    LitHit(BranchItem.steps, 0, "ab", s, 4, [Token("ab"), Token("c"), Token(",")], [Token("ab"), Token("c"), Token(","), Token("ab")]);
    assert s[6..7] == "c";
    LitHit(BranchItem.steps, 1, "c", s, 6, [Token("ab"), Token("c"), Token(","), Token("ab")], [Token("ab"), Token("c"), Token(","), Token("ab"), Token("c")]);
    StepsDone(BranchItem.steps, s, 7, [Token("ab"), Token("c"), Token(","), Token("ab"), Token("c")]);
  }

  lemma CommaListThreeStep5()
    ensures Resume(CommaList, "abc,abc,abc!!!", AtTerminator, 7, 2, [Token("ab"), Token("c"), Token(","), Token("ab"), Token("c")]) == Outcome(true, 14, [Token("ab"), Token("c"), Token(","), Token("ab"), Token("c"), Token(","), Token("ab"), Token("c"), Token("!!!"), Position], Count(3))
  {
    var s := "abc,abc,abc!!!";
    assert s[7..7] == "";
    assert "!!!"[..0] == "";
    Miss("!!!", s, 7, 0, "");
    CommaListThreeStep6();
  }

  lemma CommaListThreeStep6()
    ensures Resume(CommaList, "abc,abc,abc!!!", AtSeparator, 7, 2, [Token("ab"), Token("c"), Token(","), Token("ab"), Token("c")]) == Outcome(true, 14, [Token("ab"), Token("c"), Token(","), Token("ab"), Token("c"), Token(","), Token("ab"), Token("c"), Token("!!!"), Position], Count(3))
  {
    var s := "abc,abc,abc!!!";
    CommaListThreeStep6Part0(s);
    assert s[8..8] == "";
    assert "!!!"[..0] == "";
    Miss("!!!", s, 8, 0, "");
    CommaListThreeStep7();
  }

  lemma CommaListThreeStep6Part0(s: string)
    requires s == "abc,abc,abc!!!"
    ensures StepsF(Comma.steps, s, 7, [Token("ab"), Token("c"), Token(","), Token("ab"), Token("c")]) == Outcome(true, 8, [Token("ab"), Token("c"), Token(","), Token("ab"), Token("c"), Token(",")], NoValue)
  {
    StepsWhole(Comma.steps, s, 7, [Token("ab"), Token("c"), Token(","), Token("ab"), Token("c")]);
    assert s[7..8] == ",";
    LitHit(Comma.steps, 0, ",", s, 7, [Token("ab"), Token("c"), Token(","), Token("ab"), Token("c")], [Token("ab"), Token("c"), Token(","), Token("ab"), Token("c"), Token(",")]);
    StepsDone(Comma.steps, s, 8, [Token("ab"), Token("c"), Token(","), Token("ab"), Token("c"), Token(",")]);
  }

  lemma CommaListThreeStep7()
    ensures Resume(CommaList, "abc,abc,abc!!!", AtItem, 8, 2, [Token("ab"), Token("c"), Token(","), Token("ab"), Token("c"), Token(",")]) == Outcome(true, 14, [Token("ab"), Token("c"), Token(","), Token("ab"), Token("c"), Token(","), Token("ab"), Token("c"), Token("!!!"), Position], Count(3))
  {
    var s := "abc,abc,abc!!!";
    assert s[8..10] == "ab";
    Hit("ab", s, 8);
    CommaListThreeStep7Part0(s);
    CommaListThreeStep8();
  }

  lemma CommaListThreeStep7Part0(s: string)
    requires s == "abc,abc,abc!!!"
    ensures StepsF(BranchItem.steps, s, 8, [Token("ab"), Token("c"), Token(","), Token("ab"), Token("c"), Token(",")]) == Outcome(true, 11, [Token("ab"), Token("c"), Token(","), Token("ab"), Token("c"), Token(","), Token("ab"), Token("c")], NoValue)
  {
    StepsWhole(BranchItem.steps, s, 8, [Token("ab"), Token("c"), Token(","), Token("ab"), Token("c"), Token(",")]);
    assert s[8..10] == "ab";
    LitHit(BranchItem.steps, 0, "ab", s, 8, [Token("ab"), Token("c"), Token(","), Token("ab"), Token("c"), Token(",")], [Token("ab"), Token("c"), Token(","), Token("ab"), Token("c"), Token(","), Token("ab")]);
    assert s[10..11] == "c";
    LitHit(BranchItem.steps, 1, "c", s, 10, [Token("ab"), Token("c"), Token(","), Token("ab"), Token("c"), Token(","), Token("ab")], [Token("ab"), Token("c"), Token(","), Token("ab"), Token("c"), Token(","), Token("ab"), Token("c")]);
    StepsDone(BranchItem.steps, s, 11, [Token("ab"), Token("c"), Token(","), Token("ab"), Token("c"), Token(","), Token("ab"), Token("c")]);
  }

  lemma CommaListThreeStep8()
    ensures Resume(CommaList, "abc,abc,abc!!!", AtTerminator, 11, 3, [Token("ab"), Token("c"), Token(","), Token("ab"), Token("c"), Token(","), Token("ab"), Token("c")]) == Outcome(true, 14, [Token("ab"), Token("c"), Token(","), Token("ab"), Token("c"), Token(","), Token("ab"), Token("c"), Token("!!!"), Position], Count(3))
  {
    var s := "abc,abc,abc!!!";
    assert s[11..14] == "!!!";
    Hit("!!!", s, 11);
    CommaListThreeStep8Part0(s);
  }

  lemma CommaListThreeStep8Part0(s: string)
    requires s == "abc,abc,abc!!!"
    ensures StepsF(TermRule(TestTerm).steps, s, 11, [Token("ab"), Token("c"), Token(","), Token("ab"), Token("c"), Token(","), Token("ab"), Token("c")]) == Outcome(true, 14, [Token("ab"), Token("c"), Token(","), Token("ab"), Token("c"), Token(","), Token("ab"), Token("c"), Token("!!!"), Position], NoValue)
  {
    StepsWhole(TermRule(TestTerm).steps, s, 11, [Token("ab"), Token("c"), Token(","), Token("ab"), Token("c"), Token(","), Token("ab"), Token("c")]);
    assert s[11..14] == "!!!";
    LitHit(TermRule(TestTerm).steps, 0, "!!!", s, 11, [Token("ab"), Token("c"), Token(","), Token("ab"), Token("c"), Token(","), Token("ab"), Token("c")], [Token("ab"), Token("c"), Token(","), Token("ab"), Token("c"), Token(","), Token("ab"), Token("c"), Token("!!!")]);
    PosStep(TermRule(TestTerm).steps, 1, s, 14, [Token("ab"), Token("c"), Token(","), Token("ab"), Token("c"), Token(","), Token("ab"), Token("c"), Token("!!!")], [Token("ab"), Token("c"), Token(","), Token("ab"), Token("c"), Token(","), Token("ab"), Token("c"), Token("!!!"), Position]);
    StepsDone(TermRule(TestTerm).steps, s, 14, [Token("ab"), Token("c"), Token(","), Token("ab"), Token("c"), Token(","), Token("ab"), Token("c"), Token("!!!"), Position]);
  }

  lemma CommaListThreeVerdict()
    ensures Verify(Outcome(true, 14, [Token("ab"), Token("c"), Token(","), Token("ab"), Token("c"), Token(","), Token("ab"), Token("c"), Token("!!!"), Position], Count(3))) == TestResult(Success, Count(3), [Token("ab"), Token("c"), Token(","), Token("ab"), Token("c"), Token(","), Token("ab"), Token("c"), Token("!!!"), Position])
  {
    VerifySuccess(Outcome(true, 14, [Token("ab"), Token("c"), Token(","), Token("ab"), Token("c"), Token(","), Token("ab"), Token("c"), Token("!!!"), Position], Count(3)));
  }

  /** `.opt_list(branch, sep)` on "abd!!!". */
  lemma CommaListRecover()
    ensures Verify(OptListF(CommaList, "abd!!!", 0, [])) == TestResult(RecoveredError, Count(0), [Token("ab"), ExpectedLiteral(2, "c", 0), Recovery, ErrorToken("d"), Finish, Token("!!!"), Position])
  {
    CommaListRecoverStep0();
    CommaListRecoverVerdict();
  }

  lemma CommaListRecoverStep0()
    ensures OptListF(CommaList, "abd!!!", 0, []) == Outcome(true, 6, [Token("ab"), ExpectedLiteral(2, "c", 0), Recovery, ErrorToken("d"), Finish, Token("!!!"), Position], Count(0))
  {
    var s := "abd!!!";
    assert s[0..0] == "";
    assert "!!!"[..0] == "";
    Miss("!!!", s, 0, 0, "");
    assert ListF(CommaList, s, 0, []) == Resume(CommaList, s, AtItem, 0, 0, []);
    CommaListRecoverStep1();
  }

  lemma CommaListRecoverStep1()
    ensures Resume(CommaList, "abd!!!", AtItem, 0, 0, []) == Outcome(true, 6, [Token("ab"), ExpectedLiteral(2, "c", 0), Recovery, ErrorToken("d"), Finish, Token("!!!"), Position], Count(0))
  {
    var s := "abd!!!";
    assert s[0..2] == "ab";
    Hit("ab", s, 0);
    CommaListRecoverStep1Part0(s);
    CommaListRecoverStep2();
  }

  lemma CommaListRecoverStep1Part0(s: string)
    requires s == "abd!!!"
    ensures StepsF(BranchItem.steps, s, 0, []) == Outcome(false, 2, [Token("ab"), ExpectedLiteral(2, "c", 0)], NoValue)
  {
    StepsWhole(BranchItem.steps, s, 0, []);
    assert s[0..2] == "ab";
    LitHit(BranchItem.steps, 0, "ab", s, 0, [], [Token("ab")]);
    assert s[2..2] == "";
    assert "c"[..0] == "";
    LitMiss(BranchItem.steps, 1, "c", s, 2, 0, "", [Token("ab")], [Token("ab"), ExpectedLiteral(2, "c", 0)]);
  }

  lemma CommaListRecoverStep2()
    ensures Resume(CommaList, "abd!!!", AtRecovery, 2, 0, [Token("ab"), ExpectedLiteral(2, "c", 0)]) == Outcome(true, 6, [Token("ab"), ExpectedLiteral(2, "c", 0), Recovery, ErrorToken("d"), Finish, Token("!!!"), Position], Count(0))
  {
    var s := "abd!!!";
    assert ListStops(CommaList) == ["!!!", ","];
    assert s[2..2] == "";
    assert "!!!"[..0] == "";
    Miss("!!!", s, 2, 0, "");
    assert s[2..2] == "";
    assert ","[..0] == "";
    Miss(",", s, 2, 0, "");
    Any2("!!!", ",", s, 2);
    assert s[2..2] == "";
    assert ";"[..0] == "";
    Miss(";", s, 2, 0, "");
    Any1(";", s, 2);
    ResyncNext(ListStops(CommaList), CommaList.term.limits, s, 2);
    assert s[3..6] == "!!!";
    Hit("!!!", s, 3);
    assert s[3..3] == "";
    assert ","[..0] == "";
    Miss(",", s, 3, 0, "");
    Any2("!!!", ",", s, 3);
    assert s[3..3] == "";
    assert ";"[..0] == "";
    Miss(";", s, 3, 0, "");
    Any1(";", s, 3);
    ResyncHere(ListStops(CommaList), CommaList.term.limits, s, 3);
    CommaListRecoverStep2Part0(s);
    CommaListRecoverStep2Part1(s);
  }

  lemma CommaListRecoverStep2Part0(s: string)
    requires s == "abd!!!"
    ensures Skip(s, 2, 3, [Token("ab"), ExpectedLiteral(2, "c", 0)] + [Recovery]) == [Token("ab"), ExpectedLiteral(2, "c", 0), Recovery, ErrorToken("d")]
  {
    SkipStep(s, 2, 3, [Token("ab"), ExpectedLiteral(2, "c", 0)] + [Recovery], [Token("ab"), ExpectedLiteral(2, "c", 0), Recovery, ErrorToken("d")]);
    SkipDone(s, 3, [Token("ab"), ExpectedLiteral(2, "c", 0), Recovery, ErrorToken("d")]);
  }

  lemma CommaListRecoverStep2Part1(s: string)
    requires s == "abd!!!"
    ensures StepsF(TermRule(TestTerm).steps, s, 3, [Token("ab"), ExpectedLiteral(2, "c", 0), Recovery, ErrorToken("d")] + [Finish]) == Outcome(true, 6, [Token("ab"), ExpectedLiteral(2, "c", 0), Recovery, ErrorToken("d"), Finish, Token("!!!"), Position], NoValue)
  {
    StepsWhole(TermRule(TestTerm).steps, s, 3, [Token("ab"), ExpectedLiteral(2, "c", 0), Recovery, ErrorToken("d")] + [Finish]);
    assert s[3..6] == "!!!";
    LitHit(TermRule(TestTerm).steps, 0, "!!!", s, 3, [Token("ab"), ExpectedLiteral(2, "c", 0), Recovery, ErrorToken("d")] + [Finish], [Token("ab"), ExpectedLiteral(2, "c", 0), Recovery, ErrorToken("d"), Finish, Token("!!!")]);
    PosStep(TermRule(TestTerm).steps, 1, s, 6, [Token("ab"), ExpectedLiteral(2, "c", 0), Recovery, ErrorToken("d"), Finish, Token("!!!")], [Token("ab"), ExpectedLiteral(2, "c", 0), Recovery, ErrorToken("d"), Finish, Token("!!!"), Position]);
    StepsDone(TermRule(TestTerm).steps, s, 6, [Token("ab"), ExpectedLiteral(2, "c", 0), Recovery, ErrorToken("d"), Finish, Token("!!!"), Position]);
  }

  lemma CommaListRecoverVerdict()
    ensures Verify(Outcome(true, 6, [Token("ab"), ExpectedLiteral(2, "c", 0), Recovery, ErrorToken("d"), Finish, Token("!!!"), Position], Count(0))) == TestResult(RecoveredError, Count(0), [Token("ab"), ExpectedLiteral(2, "c", 0), Recovery, ErrorToken("d"), Finish, Token("!!!"), Position])
  {
    VerifyRecovered(Outcome(true, 6, [Token("ab"), ExpectedLiteral(2, "c", 0), Recovery, ErrorToken("d"), Finish, Token("!!!"), Position], Count(0)), 1);
  }

}
