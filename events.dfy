/** The events a parse attempt reports, in the vocabulary of the test traces,
    and the context that collects them. */
module Events {

  datatype Event =
    | Token(text: string)                               // a token matched `text`
    | ErrorToken(text: string)                          // `text` was consumed as an error token
    | Position                                          // a `position` rule produced a value
    | ExpectedLiteral(pos: nat, text: string, index: nat)
    | Error(begin: nat, end: nat, message: string)      // a generic range error
    | Recovery                                          // error recovery started
    | Finish                                            // error recovery found a continuation
    | Cancel                                            // error recovery or a production gave up

  /** The events that are reported as errors (the others are informational). */
  predicate IsError(e: Event) {
    e.ExpectedLiteral? || e.Error?
  }

  function ErrorCount(events: seq<Event>): (n: nat)
    ensures n <= |events|
    ensures n == 0 <==> forall i :: 0 <= i < |events| ==> !IsError(events[i])
  {
    if events == [] then 0
    else (if IsError(events[0]) then 1 else 0) + ErrorCount(events[1..])
  }

  lemma {:induction false} ErrorCountAppend(a: seq<Event>, b: seq<Event>)
    ensures ErrorCount(a + b) == ErrorCount(a) + ErrorCount(b)
  {
    if a != [] {
      assert (a + b)[1..] == a[1..] + b;
      ErrorCountAppend(a[1..], b);
    } else {
      assert a + b == b;
    }
  }

  /** The parse context: `context.on(...)` appends to its event log. */
  class Context {
    var events: seq<Event>

    constructor ()
      ensures events == []
    {
      events := [];
    }

    method On(e: Event)
      modifies this
      ensures events == old(events) + [e]
    {
      events := events + [e];
    }
  }
}
