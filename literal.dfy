/** The literal token rule `_lit<CharT, C...>` and its token parser `tp`. */
module Literal {
  import opened Events

  /** The value returned by `peek()` at the end of the input. */
  const EOF: int := -1

  /** A reader is a position in an input; it is copied when passed by value. */
  datatype Reader = Reader(input: string, pos: nat) {
    predicate Valid() {
      pos <= |input|
    }

    /** The next code unit as an integer, or EOF. */
    function Peek(): (c: int)
      requires Valid()
      ensures c == EOF <==> pos == |input|
    {
      if pos < |input| then input[pos] as int else EOF
    }

    function Bump(): (r: Reader)
      requires Valid() && pos < |input|
      ensures r.Valid() && r.input == input && r.pos == pos + 1
    {
      Reader(input, pos + 1)
    }
  }

  /** An empty literal is an unconditional branch, any other one an ordinary branch. */
  datatype BranchKind = UnconditionalBranch | OrdinaryBranch

  function KindOf(lit: string): (k: BranchKind)
    ensures k == UnconditionalBranch <==> |lit| == 0
  {
    if |lit| == 0 then UnconditionalBranch else OrdinaryBranch
  }

  /** The number of leading code units of `lit` that the input matches at `pos`,
      comparing one unit at a time and stopping at the first mismatch. */
  function CommonPrefix(lit: string, input: string, pos: nat): (n: nat)
    requires pos <= |input|
    ensures n <= |lit| && pos + n <= |input|
    decreases |lit|
  {
    if |lit| == 0 || pos == |input| || input[pos] != lit[0] then 0
    else 1 + CommonPrefix(lit[1..], input, pos + 1)
  }

  /** The units agree up to the common prefix and differ right after it,
      unless the literal or the input ended there. */
  lemma {:induction false} CommonPrefixAgrees(lit: string, input: string, pos: nat)
    requires pos <= |input|
    ensures var n := CommonPrefix(lit, input, pos);
            input[pos..pos + n] == lit[..n]
            && (n < |lit| ==> pos + n == |input| || input[pos + n] != lit[n])
    decreases |lit|
  {
    if |lit| > 0 && pos < |input| && input[pos] == lit[0] {
      CommonPrefixAgrees(lit[1..], input, pos + 1);
      var n := CommonPrefix(lit, input, pos);
      assert input[pos..pos + n] == [input[pos]] + input[pos + 1..pos + n];
      assert lit[..n] == [lit[0]] + lit[1..][..n - 1];
    }
  }

  /** The literal matches at `pos` iff every code unit matched. */
  predicate Matches(lit: string, input: string, pos: nat)
    requires pos <= |input|
  {
    CommonPrefix(lit, input, pos) == |lit|
  }

  lemma MatchesIsPrefix(lit: string, input: string, pos: nat)
    requires pos <= |input|
    ensures Matches(lit, input, pos) <==> pos + |lit| <= |input| && input[pos..pos + |lit|] == lit
  {
    assert lit[..|lit|] == lit;
    CommonPrefixAgrees(lit, input, pos);
    if pos + |lit| <= |input| && input[pos..pos + |lit|] == lit {
      PrefixCharacterizes(lit, input, pos, |lit|);
    }
  }

  /** The common prefix is the unique length up to which the units agree and
      after which they differ (or the literal or the input ends). */
  lemma {:induction false} PrefixCharacterizes(lit: string, input: string, pos: nat, n: nat)
    requires n <= |lit| && pos + n <= |input|
    requires input[pos..pos + n] == lit[..n]
    requires n == |lit| || pos + n == |input| || input[pos + n] != lit[n]
    ensures CommonPrefix(lit, input, pos) == n
    decreases n
  {
    if n > 0 {
      assert input[pos] == input[pos..pos + n][0] == lit[0];
      assert input[pos + 1..pos + n] == input[pos..pos + n][1..];
      assert lit[1..][..n - 1] == lit[..n][1..];
      PrefixCharacterizes(lit[1..], input, pos + 1, n - 1);
    }
  }

  /** The common prefix of a literal and the input, seen from the mismatch side:
      on failure the reported index is below the literal's length and the
      literal's next unit is not what the input holds there. */
  lemma FailedMatchIndex(lit: string, input: string, pos: nat)
    requires pos <= |input| && !Matches(lit, input, pos)
    ensures CommonPrefix(lit, input, pos) < |lit|
    ensures var n := CommonPrefix(lit, input, pos);
            pos + n == |input| || input[pos + n] != lit[n]
  {
    CommonPrefixAgrees(lit, input, pos);
  }

  /** An empty literal matches everywhere and consumes nothing. */
  lemma EmptyLiteralMatches(input: string, pos: nat)
    requires pos <= |input|
    ensures KindOf([]) == UnconditionalBranch
    ensures Matches([], input, pos) && CommonPrefix([], input, pos) == 0
  {
  }

  /** `lit_c<C>`: the literal of the single code unit `C`. */
  function LitC(c: char): (lit: string)
    ensures KindOf(lit) == OrdinaryBranch
  {
    [c]
  }

  lemma LitCMatches(c: char, input: string, pos: nat)
    requires pos <= |input|
    ensures Matches(LitC(c), input, pos) <==> pos < |input| && input[pos] == c
  {
  }

  /** The token parser `tp` of a literal: `end` records how far the last attempt got. */
  class LitParser {
    const lit: string
    var end: nat

    constructor (lit: string, reader: Reader)
      ensures this.lit == lit && end == reader.pos
    {
      this.lit := lit;
      end := reader.pos;
    }

    /** Compares each code unit, bumping a copy of the reader on success and
        stopping at the first failure. `peeked` records, in order, the position
        of every unit looked at: each unit of the common prefix, then the
        mismatch (or the end of the input), and nothing after it. */
    method TryParse(reader: Reader) returns (ok: bool, ghost peeked: seq<nat>)
      requires reader.Valid()
      modifies this
      ensures ok == Matches(lit, reader.input, reader.pos)
      ensures end == reader.pos + CommonPrefix(lit, reader.input, reader.pos)
      ensures !ok ==> end - reader.pos < |lit|
      ensures |peeked| == if ok then |lit| else end - reader.pos + 1
      ensures forall k :: 0 <= k < |peeked| ==> peeked[k] == reader.pos + k
    {
      if |lit| == 0 {
        end := reader.pos;
        return true, [];
      }
      var r := reader;
      var i := 0;
      ok := true;
      peeked := [];
      while ok && i < |lit|
        invariant 0 <= i <= |lit| && r.Valid() && r.input == reader.input
        invariant r.pos == reader.pos + i
        invariant reader.input[reader.pos..r.pos] == lit[..i]
        invariant |peeked| == if ok then i else i + 1
        invariant forall k :: 0 <= k < |peeked| ==> peeked[k] == reader.pos + k
        invariant !ok ==> i < |lit| && (r.pos == |r.input| || r.input[r.pos] != lit[i])
        decreases |lit| - i, ok
      {
        peeked := peeked + [r.pos];
        if r.Peek() == lit[i] as int {
          assert reader.input[reader.pos..r.pos + 1] == reader.input[reader.pos..r.pos] + [lit[i]];
          assert lit[..i + 1] == lit[..i] + [lit[i]];
          r := r.Bump();
          i := i + 1;
        } else {
          ok := false;
        }
      }
      PrefixCharacterizes(lit, reader.input, reader.pos, i);
      end := r.pos;
    }

    /** Reports `expected_literal` at the reader's position, with the index
        reached by the last attempt. */
    method ReportError(context: Context, reader: Reader)
      requires reader.pos <= end
      modifies context
      ensures context.events
              == old(context.events) + [ExpectedLiteral(reader.pos, lit, end - reader.pos)]
    {
      var begin := reader.pos;
      var index := end - begin;
      context.On(ExpectedLiteral(begin, lit, index));
    }
  }
}
