# lexy: literal tokens, terminators with error recovery, and error reports

This project is a Dafny model of three pieces of the lexy parser-combinator library, with proofs about them.

- **The literal token** `_lit<CharT, C...>` and its token parser `tp`. `try_parse` compares the literal with the input one code unit at a time. It bumps a copy of the reader on each match and stops at the first mismatch. It records in `end` how far it got. `report_error` turns that position into an `expected_literal(begin, text, index)` error. `lit_c<C>` is the one-unit literal.
- **The terminator construct** `dsl::terminator(term).limit(...)` and the rules built from it:
  - `term(rule)`;
  - `.try_(rule)` and `.opt(rule)`;
  - `.list(item)`, `.list(item, sep(..))` and `.list(item, trailing_sep(..))`;
  - `.opt_list(...)`.

  Its behaviour is given by its test file: for each input, the status, the value and the exact event trace. Rules are sequences of literal tokens and `position` steps over a `string`. The events are those of the test traces: `token`, `error_token`, `position`, `expected_literal`, `error(begin, end, msg)`, `recovery`, `finish` and `cancel`.

  Each rule has two forms:
  - a specification function in module `Terminator`, which takes the trace so far and returns the rule's whole outcome;
  - a method of the `TerminatorParser.Parser` class, which advances a cursor and appends events to a `Context`. Each method is proved to compute exactly its specification function.

  The general properties are lemmas in `TerminatorProperties`:
  - the cursor never moves backwards;
  - recovery stops at the first terminator, limit or end;
  - a limit is never consumed;
  - every list parse either consumes the terminator or cancels at a limit;
  - the differences between `.opt` and `.try_`, between `.opt_list` and `.list`, and between `sep` and `trailing_sep`.

  Every test scenario is a lemma in `TerminatorScenarios`.
- **The diagnostic renderer** `lexy_ext::_detail::write_error`. It turns an input, the start position of the production being parsed and an error into an annotated block of text. The block has:
  - a header;
  - an optional "beginning here" block for the context line;
  - the error line with markers under the error's range.

  The layout rules are pure functions in module `ReportError`:
  - line number and column;
  - `\n` and `\uXXXX` escaping, with widths counted in displayed columns;
  - clipping a range to the first line;
  - the end of the range for each kind of error;
  - the message.

  The output is built by methods that append to a string. They are proved to produce exactly `Render(context, error)`. The exact expected strings of the test file are lemmas in `ReportErrorScenarios`.

Positions in the renderer are byte offsets into UTF-8 text. The input is a `string` of code points, and each code point has its UTF-8 byte width (`Utf8Width`). A byte offset that falls inside a code point is rounded up to the next code point (`CpIndex`).

The header `lexy/dsl/terminator.hpp` and the header `lexy_ext/report_error.hpp` are not part of this model. Both behaviours are modelled from their test files: `tests/lexy/dsl/terminator.cpp` and `tests/lexy_ext/report_error.cpp`. Where a prose description of the library disagrees with those tests, the model follows the tests:
- `.list` on input holding only the terminator is a recovered error, not a success, because the first item is mandatory (terminator.cpp:185-193).
- `.opt` tests for the terminator before it tries the body.
- With a separator, list recovery does not stop at the item's first literal, only at the terminator or the separator. The scenario "abc,,a,abc!!!" (terminator.cpp:509-526) requires this.

## Model

| member | source | states |
|---|---|---|
| Literal.Reader.Peek | include/lexy/dsl/literal.hpp:38 | `peek()` returns the end-of-input value exactly when the reader is at the end. |
| Literal.Reader.Bump | include/lexy/dsl/literal.hpp:39 | `bump()` advances the position by one unit over the same input. |
| Literal.KindOf | include/lexy/dsl/literal.hpp:15-18 | A literal is an unconditional branch if and only if it has no code units; `EmptyLiteralMatches` and `LitC` state this for the empty literal and for `lit_c`. |
| Literal.CommonPrefix | include/lexy/dsl/literal.hpp:36-42 | The number of units matched is at most the literal's length and stays within the input. |
| Literal.CommonPrefixAgrees | include/lexy/dsl/literal.hpp:36-42 | The matched units equal the literal's prefix. A mismatch, or the end of the input, sits right after them. |
| Literal.MatchesIsPrefix | include/lexy/dsl/literal.hpp:36-43 | A literal matches if and only if it is a prefix of the input at the position. |
| Literal.PrefixCharacterizes | include/lexy/dsl/literal.hpp:38-42 | Any `n` whose prefix agrees and is followed by a mismatch or the end (or is the whole literal) is the common prefix. So matching stops at the first mismatch. |
| Literal.FailedMatchIndex | include/lexy/dsl/literal.hpp:53-56 | On failure, the index reported is strictly less than the literal's length, and the unit at that index differs from the input or lies past its end. |
| Literal.EmptyLiteralMatches | include/lexy/dsl/literal.hpp:29-33 | The empty literal is unconditional, always matches and consumes nothing. |
| Literal.LitC | include/lexy/dsl/literal.hpp:61-62 | `lit_c<C>` is a one-unit literal and an ordinary branch. |
| Literal.LitCMatches | include/lexy/dsl/literal.hpp:61-62 | `lit_c<C>` matches if and only if the next unit is `C`. |
| Literal.LitParser.constructor | include/lexy/dsl/literal.hpp:25 | `end` starts at the reader's position. |
| Literal.LitParser.TryParse | include/lexy/dsl/literal.hpp:27-45 | The result is true if and only if the literal matches. `end` is the start plus the common prefix; after a failure it lies before the literal's end. The positions peeked are, in order, those of the common prefix and then the first mismatch (or the end of the input); none lies past it. The caller's reader, passed by value, is unchanged. |
| Literal.LitParser.ReportError | include/lexy/dsl/literal.hpp:48-57 | Exactly one `expected_literal(begin, text, end - begin)` event is appended to the context. |
| Events.ErrorCount | tests/lexy/dsl/terminator.cpp:62-72 | No more errors than events are counted, and the count is zero if and only if no event is an error. The test status depends on this. |
| Events.ErrorCountAppend | tests/lexy/dsl/terminator.cpp:62-72 | Error counts add up over concatenated traces. |
| Events.Context.On | include/lexy/dsl/literal.hpp:56 | `context.on(ev)` appends exactly `ev` to the event log. |
| Terminator.TermRule | tests/lexy/dsl/terminator.cpp:15-17 | The terminator rule is a branch: the terminator literal, then `position`. |
| Terminator.Limit | tests/lexy/dsl/terminator.cpp:20-23 | `.limit(...)` keeps the terminator. The new limit set is the union of the old set and the new tokens. |
| Terminator.Apply | tests/lexy/dsl/terminator.cpp:25-30 | `term(rule)` is `rule` followed by the terminator's steps, and is not a branch. |
| Terminator.TokenF | include/lexy/dsl/literal.hpp:36-57 | A token succeeds if and only if the literal matches. On success the literal is consumed and exactly one `token` event is appended. On failure the reader stops right after the common prefix, before the literal's end; the trace gains `expected_literal(begin, text, index)` with the prefix length as index, then the matched prefix as an `error_token` when it is not empty. |
| Terminator.StepsF | tests/lexy/dsl/terminator.cpp:57-72 | A sequence never moves backwards. A leading literal that matches is consumed, and one that does not match fails the sequence. |
| Terminator.StepsAt | tests/lexy/dsl/terminator.cpp:57-72 | A sequence performs its `i`-th step, then continues with the rest on success. |
| Terminator.Resync | tests/lexy/dsl/terminator.cpp:96-105 | Recovery stops at the first position where a stop token matches or a limit (or the end) is reached. It stops at no earlier position, and it never goes past the end of the input, so it terminates. |
| Terminator.AnyMatchesOne | tests/lexy/dsl/terminator.cpp:96-105 | A one-element stop set matches exactly when its token does. |
| Terminator.ResyncHere | tests/lexy/dsl/terminator.cpp:46-55 | Recovery at a stop token does not move. |
| Terminator.ResyncNext | tests/lexy/dsl/terminator.cpp:96-105 | Recovery elsewhere moves one unit further and is not at the end. |
| Terminator.RecoverF | tests/lexy/dsl/terminator.cpp:62-72 | Recovery never moves backwards and stays within the input. |
| Terminator.TryF | tests/lexy/dsl/terminator.cpp:32-105 | `.try_` never moves backwards and stays within the input. |
| Terminator.OptF | tests/lexy/dsl/terminator.cpp:108-168 | `.opt` never moves backwards and stays within the input. |
| Terminator.ListStops | tests/lexy/dsl/terminator.cpp:218-245 | List recovery always stops at the terminator, which comes first in the stop set. |
| Terminator.Resume | tests/lexy/dsl/terminator.cpp:171-269 | The list loop never moves backwards, stays within the input, and yields an item count no smaller than the count it started with. |
| Terminator.ListF | tests/lexy/dsl/terminator.cpp:171-269 | `.list` never moves backwards and yields an item count. |
| Terminator.OptListF | tests/lexy/dsl/terminator.cpp:787-837 | `.opt_list` never moves backwards and stays within the input. |
| Terminator.Verify | tests/lexy/dsl/terminator.cpp:74-77 | The test status is fatal if and only if the parse failed, and success if and only if it succeeded without an error event. A failed parse's trace ends in the production's extra `cancel`. |
| TerminatorParser.Parser.constructor | tests/lexy/dsl/terminator.cpp:41 | A parser starts at position 0 of its input, with the given context. |
| TerminatorParser.Parser.Peek | include/lexy/dsl/literal.hpp:27-45 | Peeking a literal, with a copy of the reader, says exactly whether it matches. The cursor and the trace are unchanged. |
| TerminatorParser.Parser.PeekAny | tests/lexy/dsl/terminator.cpp:218-245 | The result says exactly whether one of the tokens matches, and nothing changes. |
| TerminatorParser.Parser.AtLimit | tests/lexy/dsl/terminator.cpp:96-105 | The result says exactly whether a limit token matches or the input has ended, and nothing changes. |
| TerminatorParser.Parser.ParseToken | include/lexy/dsl/literal.hpp:27-57 | The cursor, trace and result are exactly those of `TokenF`. |
| TerminatorParser.Parser.ParseSteps | tests/lexy/dsl/terminator.cpp:57-72 | The cursor, trace and result are exactly those of `StepsF`. |
| TerminatorParser.Parser.Recover | tests/lexy/dsl/terminator.cpp:62-72 | The loop skips units until the terminator or a limit. The cursor, trace and result are exactly those of `RecoverF`. |
| TerminatorParser.Parser.Try | tests/lexy/dsl/terminator.cpp:32-105 | The cursor, trace, result and value are exactly those of `TryF`. |
| TerminatorParser.Parser.Opt | tests/lexy/dsl/terminator.cpp:108-168 | The cursor, trace, result and value are exactly those of `OptF`. |
| TerminatorParser.Parser.SkipToStop | tests/lexy/dsl/terminator.cpp:319-333 | The cursor ends at `Resync`, and one error token is appended per skipped unit. |
| TerminatorParser.Parser.List | tests/lexy/dsl/terminator.cpp:171-785 | The loop over items, separators and recovery yields exactly the cursor, trace, result and item count of `ListF`. |
| TerminatorParser.Parser.OptList | tests/lexy/dsl/terminator.cpp:787-892 | The cursor, trace, result and value are exactly those of `OptListF`. |
| TerminatorProperties.ExtendsTrans | tests/lexy/dsl/terminator.cpp:62-72 | Trace extension is transitive. |
| TerminatorProperties.ExtendsAppend | tests/lexy/dsl/terminator.cpp:62-72 | Appending events extends a trace. |
| TerminatorProperties.StepsPlain | tests/lexy/dsl/terminator.cpp:57-94 | A sequence only appends to the trace, and only token events: never `recovery`, `finish` or `cancel`. |
| TerminatorProperties.StepsAppend | tests/lexy/dsl/terminator.cpp:25-30 | Running `a + b` is running `a`, then `b` if `a` succeeded. |
| TerminatorProperties.ApplyIsSequence | tests/lexy/dsl/terminator.cpp:25-30 | `term(rule)` behaves as `rule + terminator`. |
| TerminatorProperties.TermEvents | tests/lexy/dsl/terminator.cpp:46-55 | The terminator's events start with its token and contain only token events. |
| TerminatorProperties.TermSteps | tests/lexy/dsl/terminator.cpp:46-55 | Where the terminator matches, it is consumed entirely and reports exactly `TermEvents`. |
| TerminatorProperties.AnyMatchesAppend | tests/lexy/dsl/terminator.cpp:20-23 | A concatenated token set matches if and only if one of its parts does. |
| TerminatorProperties.LimitsCompose | tests/lexy/dsl/terminator.cpp:22-23 | `limit(a).limit(b)` is `limit(a, b)`. |
| TerminatorProperties.LimitAtCompose | tests/lexy/dsl/terminator.cpp:22-23 | A concatenated limit set is reached if and only if one of its parts is. |
| TerminatorProperties.SkipReportsUnits | tests/lexy/dsl/terminator.cpp:319-333 | List skipping appends exactly one error token per skipped code unit, in order. |
| TerminatorProperties.RecoverSpec | tests/lexy/dsl/terminator.cpp:62-105 | Recovery skips to the first terminator, limit or end, and reports the skipped text as one error token. It succeeds if and only if the terminator is there, and then finishes and consumes it. Otherwise it cancels at the limit without consuming it. |
| TerminatorProperties.TryOutcome | tests/lexy/dsl/terminator.cpp:62-94 | When the `.try_` body succeeds, there is no recovery, and the result is true if and only if the terminator follows at once. A failing body is followed by recovery. |
| TerminatorProperties.TryMissingTerminatorIsFatal | tests/lexy/dsl/terminator.cpp:74-94 | If the body succeeds and the terminator does not follow immediately, the result is fatal, no recovery is reported, and the trace ends in `cancel`, even when the terminator appears later. |
| TerminatorProperties.OptTerminatorFirst | tests/lexy/dsl/terminator.cpp:132-135 | `.opt` on input starting with the terminator succeeds with an absent value, only the terminator's events, and no error. |
| TerminatorProperties.TryTerminatorFirst | tests/lexy/dsl/terminator.cpp:46-55 | `.try_` on the same input reports the missing body, recovers, finishes at the terminator and is a recovered error. |
| TerminatorProperties.ListStopsMatch | tests/lexy/dsl/terminator.cpp:218-245 | List recovery stops at the terminator; then at the separator if there is one; otherwise at the item if it is a branch. |
| TerminatorProperties.TerminatorEndsWell | tests/lexy/dsl/terminator.cpp:194-197 | A list that ends at its terminator has consumed it. |
| TerminatorProperties.ResumeEnds | tests/lexy/dsl/terminator.cpp:171-785 | From every loop state, a list parse either succeeds right after consuming the terminator, or cancels at a limit or the end without consuming it. |
| TerminatorProperties.SeparatorEnds | tests/lexy/dsl/terminator.cpp:361-554 | The same holds from the separator state. |
| TerminatorProperties.RecoveryEnds | tests/lexy/dsl/terminator.cpp:259-269 | The same holds from the recovery state. A cancelled list stops at a limit, not at the terminator. |
| TerminatorProperties.RuleListRecoveryEndsList | tests/lexy/dsl/terminator.cpp:319-333 | Without a separator and with a non-branch item, recovery goes straight to the terminator (or cancels), one error token per unit. No item after the failure is counted. |
| TerminatorProperties.ListTerminatorFirst | tests/lexy/dsl/terminator.cpp:185-193 | `.list` on input starting with the terminator reports the missing item, recovers at the terminator, counts 0 items and is a recovered error. |
| TerminatorProperties.OptListTerminatorFirst | tests/lexy/dsl/terminator.cpp:804-807 | `.opt_list` on the same input succeeds with an absent value and no error. |
| TerminatorProperties.TrailingSeparator | tests/lexy/dsl/terminator.cpp:420-435 | With `sep`, a separator directly before the terminator appends `error(begin, end, "unexpected trailing separator")`. With `trailing_sep` it appends nothing. In both cases the terminator then ends the list with the count so far. |
| TerminatorScenarios.TryEmpty | tests/lexy/dsl/terminator.cpp:41-44 | `.try_` on "": the body fails at once, recovery reaches the end and cancels. Status and whole event trace equal the test's; the test checks no value, so the value is the model's. |
| TerminatorScenarios.TryTerminatorOnly | tests/lexy/dsl/terminator.cpp:46-55 | `.try_` on "!!!": the body fails, recovery finishes at the terminator and consumes it. Status, value and whole event trace equal the test's. |
| TerminatorScenarios.TrySuccess | tests/lexy/dsl/terminator.cpp:57-60 | `.try_` on "abc!!!": body, then terminator. Status, value and whole event trace equal the test's. |
| TerminatorScenarios.TryPartialBody | tests/lexy/dsl/terminator.cpp:62-72 | `.try_` on "ab!!!": the matched prefix of the body becomes an error token, then recovery finishes at the terminator. Status, value and whole event trace equal the test's. |
| TerminatorScenarios.TryUnterminated | tests/lexy/dsl/terminator.cpp:74-77 | `.try_` on "abc": the body succeeds, the terminator is missing, no recovery. Status and whole event trace equal the test's; the test checks no value, so the value is the model's. |
| TerminatorScenarios.TryPartialTerminator | tests/lexy/dsl/terminator.cpp:78-86 | `.try_` on "abc!": the partial terminator becomes an error token, no recovery. Status and whole event trace equal the test's; the test checks no value, so the value is the model's. |
| TerminatorScenarios.TryOtherTerminator | tests/lexy/dsl/terminator.cpp:87-90 | `.try_` on "abc???": fatal, no recovery. Status and whole event trace equal the test's; the test checks no value, so the value is the model's. |
| TerminatorScenarios.TryLaterTerminator | tests/lexy/dsl/terminator.cpp:91-94 | `.try_` on "abcdef!!!": fatal even though the terminator appears later. Status and whole event trace equal the test's; the test checks no value, so the value is the model's. |
| TerminatorScenarios.TryLimited | tests/lexy/dsl/terminator.cpp:96-105 | `.try_` on "abde;abc!!!": recovery skips "de" and cancels at the limit `;`. Status and whole event trace equal the test's; the test checks no value, so the value is the model's. |
| TerminatorScenarios.OptEmpty | tests/lexy/dsl/terminator.cpp:127-130 | `.opt` on "": as `.try_`. Status and whole event trace equal the test's; the test checks no value, so the value is the model's. |
| TerminatorScenarios.OptTerminatorOnly | tests/lexy/dsl/terminator.cpp:132-135 | `.opt` on "!!!": an absent value and no error. Status, value and whole event trace equal the test's. |
| TerminatorScenarios.OptSuccess | tests/lexy/dsl/terminator.cpp:137-140 | `.opt` on "abc!!!": a present value. Status, value and whole event trace equal the test's. |
| TerminatorScenarios.OptPartialBody | tests/lexy/dsl/terminator.cpp:142-152 | `.opt` on "ab!!!": recovered. Status, value and whole event trace equal the test's. |
| TerminatorScenarios.OptUnterminated | tests/lexy/dsl/terminator.cpp:154-157 | `.opt` on "abc": fatal. Status and whole event trace equal the test's; the test checks no value, so the value is the model's. |
| TerminatorScenarios.OptLimited | tests/lexy/dsl/terminator.cpp:159-168 | `.opt` on "abde;abc!!!": cancelled at the limit. Status and whole event trace equal the test's; the test checks no value, so the value is the model's. |
| TerminatorScenarios.BranchListEmpty | tests/lexy/dsl/terminator.cpp:180-183 | `.list(branch)` on "". Status and whole event trace equal the test's; the test checks no value, so the value is the model's. |
| TerminatorScenarios.BranchListTerminatorOnly | tests/lexy/dsl/terminator.cpp:185-193 | `.list(branch)` on "!!!": the first item is mandatory. Status and whole event trace equal the test's; the test checks no value, so the value is the model's. |
| TerminatorScenarios.BranchListOne | tests/lexy/dsl/terminator.cpp:194-197 | `.list(branch)` on "abc!!!". Status, value and whole event trace equal the test's. |
| TerminatorScenarios.BranchListTwo | tests/lexy/dsl/terminator.cpp:198-203 | `.list(branch)` on "abcabc!!!". Status, value and whole event trace equal the test's. |
| TerminatorScenarios.BranchListThree | tests/lexy/dsl/terminator.cpp:204-216 | `.list(branch)` on "abcabcabc!!!". Status, value and whole event trace equal the test's. |
| TerminatorScenarios.BranchListRecoverItem | tests/lexy/dsl/terminator.cpp:218-230 | `.list(branch)` on "abcaabc!!!": recovery stops at the next item, which is counted. Status, value and whole event trace equal the test's. |
| TerminatorScenarios.BranchListRecoverItemFailed | tests/lexy/dsl/terminator.cpp:231-245 | `.list(branch)` on "abcaababc!!!": two recoveries. Status, value and whole event trace equal the test's. |
| TerminatorScenarios.BranchListRecoverTerminator | tests/lexy/dsl/terminator.cpp:246-258 | `.list(branch)` on "abcabd!!!". Status, value and whole event trace equal the test's. |
| TerminatorScenarios.BranchListRecoverLimit | tests/lexy/dsl/terminator.cpp:259-270 | `.list(branch)` on "abcabd;abc!!!": recovery cancels at the limit, which is not consumed. Status and whole event trace equal the test's; the test checks no value, so the value is the model's. |
| TerminatorScenarios.RuleListEmpty | tests/lexy/dsl/terminator.cpp:281-284 | `.list(rule)` on "". Status and whole event trace equal the test's; the test checks no value, so the value is the model's. |
| TerminatorScenarios.RuleListTerminatorOnly | tests/lexy/dsl/terminator.cpp:286-294 | `.list(rule)` on "!!!". Status and whole event trace equal the test's; the test checks no value, so the value is the model's. |
| TerminatorScenarios.RuleListOne | tests/lexy/dsl/terminator.cpp:295-298 | `.list(rule)` on "abc!!!". Status, value and whole event trace equal the test's. |
| TerminatorScenarios.RuleListTwo | tests/lexy/dsl/terminator.cpp:299-304 | `.list(rule)` on "abcabc!!!". Status, value and whole event trace equal the test's. |
| TerminatorScenarios.RuleListThree | tests/lexy/dsl/terminator.cpp:305-317 | `.list(rule)` on "abcabcabc!!!". Status, value and whole event trace equal the test's. |
| TerminatorScenarios.RuleListRecoverItem | tests/lexy/dsl/terminator.cpp:319-334 | `.list(rule)` on "abcaabc!!!": without a branch, recovery skips one unit at a time to the terminator. Status, value and whole event trace equal the test's. |
| TerminatorScenarios.RuleListRecoverTerminator | tests/lexy/dsl/terminator.cpp:335-347 | `.list(rule)` on "abcabd!!!". Status, value and whole event trace equal the test's. |
| TerminatorScenarios.RuleListRecoverLimit | tests/lexy/dsl/terminator.cpp:348-359 | `.list(rule)` on "abcabd;abc!!!". Status and whole event trace equal the test's; the test checks no value, so the value is the model's. |
| TerminatorScenarios.BranchSepListEmpty | tests/lexy/dsl/terminator.cpp:371-374 | `.list(branch, sep)` on "". Status and whole event trace equal the test's; the test checks no value, so the value is the model's. |
| TerminatorScenarios.BranchSepListTerminatorOnly | tests/lexy/dsl/terminator.cpp:376-384 | `.list(branch, sep)` on "!!!". Status and whole event trace equal the test's; the test checks no value, so the value is the model's. |
| TerminatorScenarios.BranchSepListOne | tests/lexy/dsl/terminator.cpp:385-388 | `.list(branch, sep)` on "abc!!!". Status, value and whole event trace equal the test's. |
| TerminatorScenarios.BranchSepListTwo | tests/lexy/dsl/terminator.cpp:389-401 | `.list(branch, sep)` on "abc,,abc!!!". Status, value and whole event trace equal the test's. |
| TerminatorScenarios.BranchSepListThree | tests/lexy/dsl/terminator.cpp:402-418 | `.list(branch, sep)` on "abc,,abc,,abc!!!". Status, value and whole event trace equal the test's. |
| TerminatorScenarios.BranchSepListTrailing | tests/lexy/dsl/terminator.cpp:420-435 | `.list(branch, sep)` on "abc,,abc,,!!!": a trailing separator is an error, the list is kept. Status, value and whole event trace equal the test's. |
| TerminatorScenarios.BranchSepListNoSep | tests/lexy/dsl/terminator.cpp:437-448 | `.list(branch, sep)` on "abcabc!!!": a missing separator before an item is reported and the item parsed. Status, value and whole event trace equal the test's. |
| TerminatorScenarios.BranchSepListNoSepNoItem | tests/lexy/dsl/terminator.cpp:449-461 | `.list(branch, sep)` on "abcd!!!". Status, value and whole event trace equal the test's. |
| TerminatorScenarios.BranchSepListNoSepPartialItem | tests/lexy/dsl/terminator.cpp:462-475 | `.list(branch, sep)` on "abcab!!!". Status, value and whole event trace equal the test's. |
| TerminatorScenarios.BranchSepListPartialSep | tests/lexy/dsl/terminator.cpp:477-492 | `.list(branch, sep)` on "abc,abc!!!": with a separator, recovery does not stop at the item. Status, value and whole event trace equal the test's. |
| TerminatorScenarios.BranchSepListRecoverSep | tests/lexy/dsl/terminator.cpp:494-508 | `.list(branch, sep)` on "abc,,a,,abc!!!": recovery stops at the separator and later items are counted. Status, value and whole event trace equal the test's. |
| TerminatorScenarios.BranchSepListRecoverSepFailed | tests/lexy/dsl/terminator.cpp:509-527 | `.list(branch, sep)` on "abc,,a,abc!!!": the second recovery cannot stop at the item. Status, value and whole event trace equal the test's. |
| TerminatorScenarios.BranchSepListRecoverTerminator | tests/lexy/dsl/terminator.cpp:528-541 | `.list(branch, sep)` on "abc,,abd!!!". Status, value and whole event trace equal the test's. |
| TerminatorScenarios.BranchSepListRecoverLimit | tests/lexy/dsl/terminator.cpp:542-554 | `.list(branch, sep)` on "abc,,abd;abc!!!". Status and whole event trace equal the test's; the test checks no value, so the value is the model's. |
| TerminatorScenarios.RuleSepListEmpty | tests/lexy/dsl/terminator.cpp:566-569 | `.list(rule, sep)` on "". Status and whole event trace equal the test's; the test checks no value, so the value is the model's. |
| TerminatorScenarios.RuleSepListTerminatorOnly | tests/lexy/dsl/terminator.cpp:571-579 | `.list(rule, sep)` on "!!!". Status and whole event trace equal the test's; the test checks no value, so the value is the model's. |
| TerminatorScenarios.RuleSepListOne | tests/lexy/dsl/terminator.cpp:580-583 | `.list(rule, sep)` on "abc!!!". Status, value and whole event trace equal the test's. |
| TerminatorScenarios.RuleSepListTwo | tests/lexy/dsl/terminator.cpp:584-596 | `.list(rule, sep)` on "abc,,abc!!!". Status, value and whole event trace equal the test's. |
| TerminatorScenarios.RuleSepListThree | tests/lexy/dsl/terminator.cpp:597-613 | `.list(rule, sep)` on "abc,,abc,,abc!!!". Status, value and whole event trace equal the test's. |
| TerminatorScenarios.RuleSepListTrailing | tests/lexy/dsl/terminator.cpp:615-630 | `.list(rule, sep)` on "abc,,abc,,!!!": a trailing separator is an error. Status, value and whole event trace equal the test's. |
| TerminatorScenarios.RuleSepListNoSep | tests/lexy/dsl/terminator.cpp:632-646 | `.list(rule, sep)` on "abcabc!!!": without a branch item, recovery skips to the terminator. Status, value and whole event trace equal the test's. |
| TerminatorScenarios.RuleSepListNoSepNoItem | tests/lexy/dsl/terminator.cpp:647-659 | `.list(rule, sep)` on "abcd!!!". Status, value and whole event trace equal the test's. |
| TerminatorScenarios.RuleSepListNoSepPartialItem | tests/lexy/dsl/terminator.cpp:660-673 | `.list(rule, sep)` on "abcab!!!". Status, value and whole event trace equal the test's. |
| TerminatorScenarios.RuleSepListPartialSep | tests/lexy/dsl/terminator.cpp:675-690 | `.list(rule, sep)` on "abc,abc!!!". Status, value and whole event trace equal the test's. |
| TerminatorScenarios.RuleSepListRecoverSep | tests/lexy/dsl/terminator.cpp:692-706 | `.list(rule, sep)` on "abc,,a,,abc!!!": recovery stops at the separator. Status, value and whole event trace equal the test's. |
| TerminatorScenarios.RuleSepListRecoverSepFailed | tests/lexy/dsl/terminator.cpp:707-725 | `.list(rule, sep)` on "abc,,a,abc!!!". Status, value and whole event trace equal the test's. |
| TerminatorScenarios.RuleSepListRecoverTerminator | tests/lexy/dsl/terminator.cpp:726-739 | `.list(rule, sep)` on "abc,,abd!!!". Status, value and whole event trace equal the test's. |
| TerminatorScenarios.RuleSepListRecoverLimit | tests/lexy/dsl/terminator.cpp:740-752 | `.list(rule, sep)` on "abc,,abd;abc!!!". Status and whole event trace equal the test's; the test checks no value, so the value is the model's. |
| TerminatorScenarios.BranchTrailingListEmpty | tests/lexy/dsl/terminator.cpp:764-767 | `.list(branch, trailing_sep)` on "". Status and whole event trace equal the test's; the test checks no value, so the value is the model's. |
| TerminatorScenarios.BranchTrailingListTrailing | tests/lexy/dsl/terminator.cpp:769-783 | `.list(branch, trailing_sep)` on "abc,,abc,,!!!": success. Status, value and whole event trace equal the test's. |
| TerminatorScenarios.OptListEmpty | tests/lexy/dsl/terminator.cpp:799-802 | `.opt_list(branch)` on "". Status and whole event trace equal the test's; the test checks no value, so the value is the model's. |
| TerminatorScenarios.OptListTerminatorOnly | tests/lexy/dsl/terminator.cpp:804-807 | `.opt_list(branch)` on "!!!": an absent value and no error. Status, value and whole event trace equal the test's. |
| TerminatorScenarios.OptListOne | tests/lexy/dsl/terminator.cpp:808-811 | `.opt_list(branch)` on "abc!!!". Status, value and whole event trace equal the test's. |
| TerminatorScenarios.OptListThree | tests/lexy/dsl/terminator.cpp:812-824 | `.opt_list(branch)` on "abcabcabc!!!". Status, value and whole event trace equal the test's. |
| TerminatorScenarios.OptListRecover | tests/lexy/dsl/terminator.cpp:826-837 | `.opt_list(branch)` on "abd!!!". Status, value and whole event trace equal the test's. |
| TerminatorScenarios.CommaListEmpty | tests/lexy/dsl/terminator.cpp:852-855 | `.opt_list(branch, sep)` on "". Status and whole event trace equal the test's; the test checks no value, so the value is the model's. |
| TerminatorScenarios.CommaListTerminatorOnly | tests/lexy/dsl/terminator.cpp:857-860 | `.opt_list(branch, sep)` on "!!!": an absent value and no error. Status, value and whole event trace equal the test's. |
| TerminatorScenarios.CommaListOne | tests/lexy/dsl/terminator.cpp:861-864 | `.opt_list(branch, sep)` on "abc!!!". Status, value and whole event trace equal the test's. |
| TerminatorScenarios.CommaListThree | tests/lexy/dsl/terminator.cpp:865-879 | `.opt_list(branch, sep)` on "abc,abc,abc!!!". Status, value and whole event trace equal the test's. |
| TerminatorScenarios.CommaListRecover | tests/lexy/dsl/terminator.cpp:881-892 | `.opt_list(branch, sep)` on "abd!!!". Status, value and whole event trace equal the test's. |
| ReportError.Utf8Width | tests/lexy_ext/report_error.cpp:125-136 | A code point takes 1 to 4 bytes in UTF-8, and exactly 1 if and only if it is ASCII. |
| ReportError.ByteLength | tests/lexy_ext/report_error.cpp:125-136 | Text takes at least as many bytes as it has code points. |
| ReportError.ByteLengthStep | tests/lexy_ext/report_error.cpp:125-136 | Each code point adds its own width to the byte length of a prefix. |
| ReportError.ByteLengthAppend | tests/lexy_ext/report_error.cpp:125-136 | Byte lengths add up over concatenation. |
| ReportError.CpIndex | tests/lexy_ext/report_error.cpp:125-136 | The code point reached by a byte offset is within the text and no further than the offset. |
| ReportError.CpIndexIsLeast | tests/lexy_ext/report_error.cpp:125-136 | It is the least index whose byte offset reaches the given offset, so an offset inside a code point is rounded up. |
| ReportError.CpIndexAscii | tests/lexy_ext/report_error.cpp:38-83 | On ASCII text, byte offsets are code point indices, clamped to the end. |
| ReportError.CpIndexOfOffset | tests/lexy_ext/report_error.cpp:125-136 | Mapping a code point index to its byte offset and back gives the same index. |
| ReportError.LineStart | tests/lexy_ext/report_error.cpp:86-100 | The line start is at or before the position, right after a newline or at 0, with no newline in between. |
| ReportError.LineEnd | tests/lexy_ext/report_error.cpp:137-148 | The line end is at or after the position, at a newline or at the end of the input, with no newline in between. |
| ReportError.LineEndIs | tests/lexy_ext/report_error.cpp:137-148 | Those properties determine the line end uniquely. |
| ReportError.LineStartIs | tests/lexy_ext/report_error.cpp:86-100 | Those properties determine the line start uniquely. |
| ReportError.Newlines | tests/lexy_ext/report_error.cpp:86-100 | Helper for `LineNumber`: it counts at most one newline per character. Its meaning is stated by `LineNumberStep` and `SameLine`. |
| ReportError.LineNumber | tests/lexy_ext/report_error.cpp:86-100 | Lines are numbered from 1. This contract is only that bound; `LineNumberStep` and `SameLine` state what the number means. |
| ReportError.LineNumberStep | tests/lexy_ext/report_error.cpp:86-100 | The line number grows by one exactly past each newline. |
| ReportError.SameLine | tests/lexy_ext/report_error.cpp:86-112 | Two positions have the same line number if and only if no newline lies between them. |
| ReportError.NewlinesMonotone | tests/lexy_ext/report_error.cpp:86-100 | Line numbers never decrease along the input. |
| ReportError.Hex | tests/lexy_ext/report_error.cpp:133 | A hex rendering has at least the requested number of digits. |
| ReportError.HexRoundTrip | tests/lexy_ext/report_error.cpp:133 | Reading back the hex digits gives the code point. |
| ReportError.HexDigits | tests/lexy_ext/report_error.cpp:133 | Every character of the rendering is one of `0`-`9`, `A`-`F`. |
| ReportError.HexDigitValue | tests/lexy_ext/report_error.cpp:133 | Each hex digit reads back as its value. |
| ReportError.HexLength | tests/lexy_ext/report_error.cpp:133 | A value below 16^width takes exactly `width` digits. |
| ReportError.Pow16 | tests/lexy_ext/report_error.cpp:133 | Helper for `HexLength`: powers of 16 are positive. |
| ReportError.Escape | tests/lexy_ext/report_error.cpp:101-136 | A character is shown as one column if and only if it is printable ASCII; anything else is escaped. |
| ReportError.EscapeWidth | tests/lexy_ext/report_error.cpp:101-136 | Printable ASCII is shown as is. A newline is shown as the text `\n`. Any other code point is shown as `\u` followed by at least 4 characters, all hex digits, which read back as the code point; below U+10000 there are exactly 4. |
| ReportError.VisualizeAppend | tests/lexy_ext/report_error.cpp:125-136 | Escaping distributes over concatenation. |
| ReportError.VisualizeAscii | tests/lexy_ext/report_error.cpp:38-83 | Printable ASCII text is displayed unchanged, one column per character. |
| ReportError.WidthAtLeastLength | tests/lexy_ext/report_error.cpp:125-136 | Displayed text is never narrower than its number of code points. |
| ReportError.Annotate | tests/lexy_ext/report_error.cpp:101-148 | The annotation is for the error's line, and its three parts put together are that line. Nothing is marked if and only if the position is the end of the input. A newline at the position is marked by itself and ends the line. Otherwise the marked range is `[a, e)`, clipped to the line's end, or one code point when it is empty. |
| ReportError.AnnotationIsOneLine | tests/lexy_ext/report_error.cpp:137-148 | The displayed text never reaches into a following line. |
| ReportError.Underline | tests/lexy_ext/report_error.cpp:113-124 | At least one marker is always printed, even at the end of the input. |
| ReportError.RangeEnd | tests/lexy_ext/report_error.cpp:38-83 | A generic or keyword error underlines up to its end. An expected literal with index i underlines i+1 units. A character class underlines one unit. The marker counts that follow are proved by `ErrorMarkers` and, on ASCII input, `AsciiErrorMarkers`. |
| ReportError.MessageText | tests/lexy_ext/report_error.cpp:38-83 | The message does not depend on positions. A generic error shows its tag. An expected literal of printable ASCII reads `expected '<text>'`, and an expected keyword `expected keyword '<text>'`. A character class reads `expected '<name>' character`. |
| ReportError.Repeat | tests/lexy_ext/report_error.cpp:44-53 | The marker run has exactly `n` copies of the marker. |
| ReportError.Decimal | tests/lexy_ext/report_error.cpp:43 | A line number has at least one digit. `DecimalRoundTrip` states that the digits are the number. |
| ReportError.DecimalDigitValue | tests/lexy_ext/report_error.cpp:43 | Each decimal digit is a character from `0` to `9` that reads back as its value. |
| ReportError.DecimalRoundTrip | tests/lexy_ext/report_error.cpp:43 | The line number field consists of decimal digits that read back as the line number, with no leading zero. |
| ReportError.PadLeft | tests/lexy_ext/report_error.cpp:43 | Line numbers are right-aligned in a field of 4 columns. The text ends the field unchanged and every column before it is a space. |
| ReportError.AsciiAnnotationRows | tests/lexy_ext/report_error.cpp:38-83 | On a line of printable ASCII, the line is printed as is. The markers start at the range's offset, one per character. |
| ReportError.LinesAppend | tests/lexy_ext/report_error.cpp:92-99 | Printing two blocks of rows is printing the first, then the second. |
| ReportError.LinesPair | tests/lexy_ext/report_error.cpp:41-45 | Each row is followed by a newline. |
| ReportError.ErrorMarkers | tests/lexy_ext/report_error.cpp:38-148 | The markers start at the displayed width of the line before the error. There is 1 marker at the end of the input, and 2 under a newline, which ends the line. Otherwise there is one marker per displayed column of the range clipped to its line, and never fewer than its code points. |
| ReportError.AsciiWidth | tests/lexy_ext/report_error.cpp:38-83 | Printable ASCII takes one column per character. |
| ReportError.AsciiErrorMarkers | tests/lexy_ext/report_error.cpp:38-83 | On ASCII text: the column is the offset within the line. The marker count is 1 for a point, `end - begin` for a range on one line, and the rest of the line for a longer range. |
| ReportError.ContextShownIff | tests/lexy_ext/report_error.cpp:86-100 | The "beginning here" block appears if and only if the error is on another line than the production's start. That block is the start line, a `~` marker and a blank gutter row. The report always starts with the headline and the gutter, and ends with the error's two rows. |
| ReportError.Locate | tests/lexy_ext/report_error.cpp:86-100 | Walking the input finds exactly the code point at a byte offset and its line number. |
| ReportError.VisualizeSingle | tests/lexy_ext/report_error.cpp:101-136 | A single character is displayed as its escape. |
| ReportError.WriteVisualized | tests/lexy_ext/report_error.cpp:125-136 | Writing text escaped appends exactly its display and returns its width in columns. |
| ReportError.WriteRepeated | tests/lexy_ext/report_error.cpp:44-53 | Exactly `n` copies of the character are appended. |
| ReportError.WriteAnnotation | tests/lexy_ext/report_error.cpp:41-45 | The two rows of an annotation are appended, each followed by a newline. |
| ReportError.WriteHeader | tests/lexy_ext/report_error.cpp:41-42 | The output starts with `error: while parsing <production>` and an empty gutter row. |
| ReportError.LinesSnoc | tests/lexy_ext/report_error.cpp:92-99 | Appending one row to printed rows prints the extended list. |
| ReportError.WriteContext | tests/lexy_ext/report_error.cpp:86-100 | The context block is appended exactly when the error is on another line. |
| ReportError.WriteError | tests/lexy_ext/report_error.cpp:25-148 | The text written is exactly `Render(context, error)`: the report's rows, each followed by a newline. |
| ReportErrorScenarios.WritesGenericPoint | tests/lexy_ext/report_error.cpp:38-46 | A point error at offset 0 of "hello world" renders as the test's four rows, with one `^`. |
| ReportErrorScenarios.WritesGenericRange | tests/lexy_ext/report_error.cpp:47-55 | The range [2, 4) renders `^^` under "ll". |
| ReportErrorScenarios.WritesExpectedLiteral | tests/lexy_ext/report_error.cpp:56-64 | `expected_literal` at 2 with index 1 renders 2 carets and `expected 'abc'`. |
| ReportErrorScenarios.WritesExpectedKeyword | tests/lexy_ext/report_error.cpp:65-74 | `expected_keyword` over [2, 7) renders 5 carets and `expected keyword 'abc'`. |
| ReportErrorScenarios.WritesExpectedCharClass | tests/lexy_ext/report_error.cpp:75-83 | `expected_char_class` at 4 renders one caret and `expected 'class' character`. |
| ReportErrorScenarios.WritesContextAnnotation | tests/lexy_ext/report_error.cpp:86-100 | An error on line 2 renders line 1 with `~ beginning here`, a blank gutter row, then line 2 with its caret. |
| ReportErrorScenarios.WritesErrorAtNewline | tests/lexy_ext/report_error.cpp:101-112 | An error at the newline renders it as `\n`, with 2 carets under it. |
| ReportErrorScenarios.WritesErrorAtEof | tests/lexy_ext/report_error.cpp:113-124 | An error at the end renders one caret one column past the last character. |
| ReportErrorScenarios.WritesEscapedCharacters | tests/lexy_ext/report_error.cpp:125-136 | A 6-byte range over `hel\u1234lo` renders the non-ASCII code point as `\u1234`, with 9 carets. |
| ReportErrorScenarios.WritesMultiLineRange | tests/lexy_ext/report_error.cpp:137-148 | A range [0, 8) across a newline is clipped to "hello": 5 carets, and no second line is printed. |

## Left out

- Value production (`lexy::callback`, `dsl::capture` lexemes, the value of `dsl::position`) is not modelled. A rule yields a `Value`: `NoValue`, `Nullopt`, `Present` or `Count(n)`. `position` is reduced to its event.
- `Value` stands for the callback overload the test selects, and so for the integer the test checks:
  - `.try_`: `NoValue` is 0 (the body failed and the rule recovered), `Present` is 1;
  - `.opt`: `Nullopt` is 0, `Present` is 1, `NoValue` is 2 (recovered);
  - `.list` and `.opt_list`: `Count(n)` is `n` and `Nullopt` is 0.
- Rows whose test checks no value (fatal results, and `.list` on the terminator alone) leave the value to the model.
- Compile-time machinery is not modelled: `LEXY_LIT`, `LEXY_NTTP_STRING`, `type_string`, and the `token_base`/`branch_base` inheritance (only the branch kind is kept). A literal is a runtime `string`.
- `lit_b` (byte literals) is not modelled. It is the same `_lit` over `unsigned char`, so only the code-unit type would differ.
- Encodings are not modelled. Code units are `char`s and `_char_to_int_type` is `as int`. The renderer does not decode UTF-8: its input is a sequence of code points, each with its UTF-8 width.
- The test harness (`LEXY_VERIFY`, `test_trace`, `verify.hpp`) is not part of this model. It is reduced to the event vocabulary and `Terminator.Verify`, which derives the status and adds the production's final `cancel`.
- `dsl::terminator`, `dsl::recover`, `dsl::list` and `dsl::sep` are modelled from their test file, because their headers are not part of this model. Only the grammars those tests use are covered: literals and literal branches, an optional `position`, and literal limits.
- The `equivalent_rules` checks (terminator.cpp:17-23) are type identities. They are stated as `TerminatorProperties.LimitsCompose` and `TerminatorProperties.ApplyIsSequence` about behaviour instead.
- The renderer's `visualization_options` (colours, Unicode box drawing, tab and space visualisation) are not modelled. Only the default plain-ASCII output the tests use is covered.
- Escaped code points are written with upper-case hex digits; the tests show only digits.
- ReportError.EscapeWidth: code points at U+10000 and above are escaped with as many hex digits as they need; the lemma bounds their width from below only.
- Writing to a stream or an output iterator is not modelled. The renderer builds a `string`.
- The event sink of the tests is not modelled: `Events.Context` keeps the events in order and does nothing else with them.
