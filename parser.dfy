/** The imperative parser: a reader position that the rules advance token by
    token while reporting events to a context. Each method is proved to do
    what the corresponding function of module Terminator describes. */
module TerminatorParser {
  import opened Events
  import opened Literal
  import opened Terminator

  class Parser {
    const input: string
    var pos: nat
    const context: Context

    ghost predicate Valid()
      reads this
    {
      pos <= |input|
    }

    constructor (input: string, context: Context)
      ensures Valid() && this.input == input && pos == 0 && this.context == context
    {
      this.input := input;
      pos := 0;
      this.context := context;
    }

    /** Whether `lit` matches here: `try_parse` on a copy of the reader, so the
        position is left alone. */
    method Peek(lit: string) returns (b: bool)
      requires Valid()
      ensures b == Matches(lit, input, pos)
    {
      var reader := Reader(input, pos);
      var tp := new LitParser(lit, reader);
      ghost var peeked: seq<nat>;
      b, peeked := tp.TryParse(reader);
    }

    /** Whether any of `lits` matches here. */
    method PeekAny(lits: seq<string>) returns (b: bool)
      requires Valid()
      ensures b == AnyMatches(lits, input, pos)
    {
      var i := 0;
      b := false;
      while i < |lits| && !b
        invariant 0 <= i <= |lits|
        invariant AnyMatches(lits, input, pos) == (b || AnyMatches(lits[i..], input, pos))
      {
        assert lits[i..][1..] == lits[i + 1..];
        b := Peek(lits[i]);
        i := i + 1;
      }
    }

    /** Whether recovery must give up here: at the end or at a limit token. */
    method AtLimit(limits: seq<string>) returns (b: bool)
      requires Valid()
      ensures b == LimitAt(limits, input, pos)
    {
      if pos == |input| {
        return true;
      }
      b := PeekAny(limits);
    }

    /** Parses a literal token through the literal's token parser. */
    method ParseToken(lit: string) returns (ok: bool)
      requires Valid()
      modifies this, context
      ensures Valid()
      ensures var o := TokenF(lit, input, old(pos), old(context.events));
              ok == o.ok && pos == o.pos && context.events == o.trace
    {
      var reader := Reader(input, pos);
      var tp := new LitParser(lit, reader);
      ghost var peeked: seq<nat>;
      ok, peeked := tp.TryParse(reader);
      if ok {
        context.On(Token(lit));
      } else {
        tp.ReportError(context, reader);
        if tp.end > pos {
          context.On(ErrorToken(input[pos..tp.end]));
        }
      }
      pos := tp.end;
    }

    /** Parses a sequence rule, stopping at the first failing step. */
    method ParseSteps(steps: seq<Step>) returns (ok: bool)
      requires Valid()
      modifies this, context
      ensures Valid()
      ensures var o := StepsF(steps, input, old(pos), old(context.events));
              ok == o.ok && pos == o.pos && context.events == o.trace
    {
      ghost var goal := StepsF(steps, input, pos, context.events);
      var i := 0;
      ok := true;
      while ok && i < |steps|
        invariant Valid() && i <= |steps|
        invariant ok ==> StepsF(steps[i..], input, pos, context.events) == goal
        invariant !ok ==> goal == Outcome(false, pos, context.events, NoValue)
      {
        StepsAt(steps, i, input, pos, context.events);
        if steps[i].Pos? {
          context.On(Position);
        } else {
          ok := ParseToken(steps[i].text);
        }
        i := i + 1;
      }
    }

    /** `recover(terminator).limit(...)`. */
    method Recover(t: Term) returns (ok: bool)
      requires Valid()
      modifies this, context
      ensures Valid()
      ensures var o := RecoverF(t, input, old(pos), old(context.events));
              ok == o.ok && pos == o.pos && context.events == o.trace
    {
      ghost var q := Resync([t.lit], t.limits, input, pos);
      context.On(Recovery);
      var begin := pos;
      var found := false;
      while true
        invariant Valid() && begin <= pos <= q && q == Resync([t.lit], t.limits, input, pos)
        invariant context.events == old(context.events) + [Recovery]
        decreases |input| - pos
      {
        found := Peek(t.lit);
        AnyMatchesOne(t.lit, input, pos);
        if found {
          ResyncHere([t.lit], t.limits, input, pos);
          break;
        }
        var limit := AtLimit(t.limits);
        if limit {
          ResyncHere([t.lit], t.limits, input, pos);
          break;
        }
        ResyncNext([t.lit], t.limits, input, pos);
        pos := pos + 1;
      }
      assert pos == q;
      if pos > begin {
        context.On(ErrorToken(input[begin..pos]));
      }
      if found {
        context.On(Finish);
        ok := ParseSteps(TermRule(t).steps);
      } else {
        context.On(Cancel);
        ok := false;
      }
    }

    /** `.try_(body)`. */
    method Try(t: Term, body: Rule) returns (ok: bool, v: Value)
      requires Valid()
      modifies this, context
      ensures Valid()
      ensures var o := TryF(t, body, input, old(pos), old(context.events));
              ok == o.ok && v == o.value && pos == o.pos && context.events == o.trace
    {
      var bodyOk := ParseSteps(body.steps);
      if bodyOk {
        ok := ParseSteps(TermRule(t).steps);
        v := Present;
      } else {
        ok := Recover(t);
        v := NoValue;
      }
    }

    /** `.opt(body)`. */
    method Opt(t: Term, body: Rule) returns (ok: bool, v: Value)
      requires Valid()
      modifies this, context
      ensures Valid()
      ensures var o := OptF(t, body, input, old(pos), old(context.events));
              ok == o.ok && v == o.value && pos == o.pos && context.events == o.trace
    {
      var atTerm := Peek(t.lit);
      if atTerm {
        ok := ParseSteps(TermRule(t).steps);
        v := Nullopt;
      } else {
        ok, v := Try(t, body);
      }
    }

    /** The scan of list recovery: skips one code unit at a time, reporting
        each as an error token, until a stop token or a limit. */
    method SkipToStop(c: List)
      requires Valid() && ValidList(c)
      modifies this, context
      ensures Valid()
      ensures pos == Resync(ListStops(c), c.term.limits, input, old(pos))
      ensures context.events == Skip(input, old(pos), pos, old(context.events))
    {
      ghost var q := Resync(ListStops(c), c.term.limits, input, pos);
      var stops := ListStops(c);
      while true
        invariant Valid() && old(pos) <= pos <= q && q == Resync(stops, c.term.limits, input, pos)
        invariant Skip(input, pos, q, context.events) == Skip(input, old(pos), q, old(context.events))
        decreases |input| - pos
      {
        var stop := PeekAny(stops);
        if stop {
          ResyncHere(stops, c.term.limits, input, pos);
          break;
        }
        var limit := AtLimit(c.term.limits);
        if limit {
          ResyncHere(stops, c.term.limits, input, pos);
          break;
        }
        ResyncNext(stops, c.term.limits, input, pos);
        var begin := pos;
        pos := pos + 1;
        context.On(ErrorToken(input[begin..pos]));
      }
    }

    /** `.list(item, sep)`: the loop over the states of the list. */
    method List(c: List) returns (ok: bool, count: nat)
      requires Valid() && ValidList(c)
      modifies this, context
      ensures Valid()
      ensures var o := ListF(c, input, old(pos), old(context.events));
              ok == o.ok && Count(count) == o.value && pos == o.pos && context.events == o.trace
    {
      ghost var goal := ListF(c, input, pos, context.events);
      var state := AtItem;
      count := 0;
      while true
        invariant Valid()
        invariant Resume(c, input, state, pos, count, context.events) == goal
        decreases |input| - pos, Rank(c, input, state, pos)
      {
        match state {
          case AtTerminator =>
            var atTerm := Peek(c.term.lit);
            if atTerm {
              ok := ParseSteps(TermRule(c.term).steps);
              return;
            }
            state := AtSeparator;
          case AtSeparator =>
            if c.sep.NoSep? {
              state := AtItem;
            } else {
              var sepPos := pos;
              var sepOk := ParseSteps(c.sep.rule.steps);
              if sepOk {
                var atTerm := Peek(c.term.lit);
                if atTerm {
                  if c.sep.Sep? {
                    context.On(Error(sepPos, pos, TrailingSeparatorMessage));
                  }
                  ok := ParseSteps(TermRule(c.term).steps);
                  return;
                }
                state := AtItem;
              } else if sepPos == pos && IsBranch(c.item) {
                var atItem := Peek(First(c.item));
                if atItem {
                  var itemOk := ParseSteps(c.item.steps);
                  if itemOk {
                    count := count + 1;
                    state := AtTerminator;
                  } else {
                    state := AtRecovery;
                  }
                } else {
                  state := AtRecovery;
                }
              } else {
                state := AtRecovery;
              }
            }
          case AtItem =>
            var itemOk := ParseSteps(c.item.steps);
            if itemOk {
              count := count + 1;
              state := AtTerminator;
            } else {
              state := AtRecovery;
            }
          case AtRecovery =>
            context.On(Recovery);
            SkipToStop(c);
            var atTerm := Peek(c.term.lit);
            var atSep := false;
            var atItem := false;
            if !atTerm && !c.sep.NoSep? {
              atSep := Peek(First(c.sep.rule));
            }
            if !atTerm && c.sep.NoSep? && IsBranch(c.item) {
              atItem := Peek(First(c.item));
            }
            if atTerm {
              context.On(Finish);
              ok := ParseSteps(TermRule(c.term).steps);
              return;
            } else if atSep {
              context.On(Finish);
              state := AtSeparator;
            } else if atItem {
              context.On(Finish);
              state := AtItem;
            } else {
              context.On(Cancel);
              return false, count;
            }
        }
      }
    }

    /** `.opt_list(item, sep)`. */
    method OptList(c: List) returns (ok: bool, v: Value)
      requires Valid() && ValidList(c)
      modifies this, context
      ensures Valid()
      ensures var o := OptListF(c, input, old(pos), old(context.events));
              ok == o.ok && v == o.value && pos == o.pos && context.events == o.trace
    {
      var atTerm := Peek(c.term.lit);
      if atTerm {
        ok := ParseSteps(TermRule(c.term).steps);
        v := Nullopt;
      } else {
        var count;
        ok, count := List(c);
        v := Count(count);
      }
    }
  }
}
