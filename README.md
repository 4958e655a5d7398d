# XML pull lexer

This project is a Dafny model of the pull lexer of xml-rs, `src/reader/lexer.rs`, with proofs about it.
The lexer turns a character stream into XML lexemes (`Token`s). Each `next_token` call returns one token, an error, or nothing once the stream is exhausted. In lenient mode it never reports a malformed lexeme as an error and returns its text as a `Chunk` instead.

The modules follow the three parts of the source file:

- `Tokens` (tokens.dfy) holds `Token` and its pure queries: rendering, `as_static_str`, `contains_char_data` and `is_whitespace`.
- `Machine` (machine.dfy) holds `State` and its substates, and one pure function per state handler (`normal` … `cdata_closing`).
  - Each handler returns an `Outcome`: one of `move_to`, `move_to_with`, `move_to_with_unread` or `handle_error`.
  - `Transition` is `dispatch_char`.
  - The `dispatch_on_enum_state!` chains for `[CDATA[` and `DOCTYPE` are written out substate by substate.
  - `Pending(st)` is the text a state has consumed since the last token. `Accounts` states that a transition loses and invents no character.
- `Driver` (driver.dfy) holds the six fields of `PullLexer` as a value, `LexerState`, and the driver as pure functions:
  - `Feed` is `read_next_token` with its row/column update;
  - `Finalize` is the one-time end-of-stream handling;
  - `ReadLoop` and `NextTokenSpec` describe one `next_token` call;
  - `Run` describes `n` successive calls.
- `Lexer` (lexer.dfy) holds `PullLexer` as a class whose methods update its fields in place. `next_token` has its `while` loop. `CharSource` is a text with a read cursor. Every method is proved to compute the pure functions of `Driver`.
- `Keywords` (keywords.dfy) proves the keyword chains. From `<!`, `CDataStart` comes exactly after `[CDATA[` and `DoctypeStart` exactly after `DOCTYPE`. A character that breaks a chain off reports the consumed prefix.
- `DriverProperties` (driver_properties.dfy) proves properties of `next_token`:
  - the position bookkeeping;
  - exhaustion;
  - end-of-stream finalization;
  - strict and lenient mismatches;
  - lossless output: on an error-free run to the end, the renderings of the tokens concatenate to the input.
- `Traces` (traces.dfy) replays the unit tests at the end of the source file as lemmas about `Run`; `SimpleTrace` (simple_trace.dfy) replays the longest of them, `simple_lexer_test`, call by call. It also shows three behaviours of the driver on short inputs:
  - a pushed-back character is counted twice;
  - a re-dispatch that completes no token reads on;
  - the error column can go below zero.

The lexer consults two character classes of the library's `common` module, `is_whitespace_char` and `is_name_char`. The model takes them as a parameter `CharClasses` and assumes nothing about them. A trace lemma requires only the facts its input needs, for example that `'\t'` is whitespace.

The error column `col - len(chunk) - 1` is unsigned arithmetic in the source. Here it is an `int`. After a newline it is negative: `<!` followed by a newline gives column -3.

## Model

| member | source | states |
|---|---|---|
| Tokens.Render | src/reader/lexer.rs:55-81 | a `Chunk` renders as its text, `Character` and `Whitespace` as their character, every other token as a fixed text of one to nine characters |
| Tokens.AsStaticStr | src/reader/lexer.rs:90-110 | no fixed text exactly for `Chunk`, `Character` and `Whitespace`; otherwise the fixed text equals the token's rendering (lines 55-81) |
| Tokens.StaticStrInjective | src/reader/lexer.rs:90-110 | no two markup tokens share a fixed text, so a fixed text names exactly one token |
| Tokens.ContainsCharData | src/reader/lexer.rs:115-121 | true exactly for the tokens without fixed text and for `>`, `=`, `"` and `'` |
| Tokens.IsWhitespace | src/reader/lexer.rs:125-130 | true exactly for `Whitespace`, which renders as one character and contains character data |
| Machine.OnNormal | src/reader/lexer.rs:366-382 | `<`, `/`, `?`, `-` and `]` go pending, and nothing else does; `>`, `=`, `"`, `'`, `&` and `;` are emitted as the markup token whose fixed text is that character; a `Whitespace` token is emitted exactly for a whitespace character that is none of the special characters, a `Character` token exactly for any other such character, and either carries the character read |
| Machine.OnTagOpened | src/reader/lexer.rs:385-394 | after `<`, a mismatch exactly for a character that is not `?`, `/`, `!`, whitespace or a name character; `?` and `/` exactly emit the markup token with fixed text `<?` or `</`; `!` exactly goes pending; a pushed-back character closes an `OpeningTagStart` |
| Machine.OnCommentOrCDataOrDoctypeStarted | src/reader/lexer.rs:397-404 | after `<!`, a mismatch exactly for a character other than `-`, `[` and `D` |
| Machine.OnCommentStarted | src/reader/lexer.rs:407-412 | after `<!-`, no mismatch exactly for `-`, which emits the markup token with fixed text `<!--` |
| Machine.OnCDataStarted | src/reader/lexer.rs:415-425 | a token is emitted exactly in the last substate on `[`, and it is the markup token with fixed text `<![CDATA[` |
| Machine.OnDoctypeStarted | src/reader/lexer.rs:428-438 | a token is emitted exactly in the last substate on `E`, and it is the markup token with fixed text `<!DOCTYPE` |
| Machine.OnProcessingInstructionClosing | src/reader/lexer.rs:441-446 | after `?`, a token without pushback exactly on `>`, the markup token with fixed text `?>`; any other character is pushed back and the `?` becomes `Character('?')` |
| Machine.OnEmptyElementClosing | src/reader/lexer.rs:449-454 | after `/`, a token without pushback exactly on `>`, the markup token with fixed text `/>`; any other character is pushed back and the `/` becomes `Character('/')` |
| Machine.OnCommentClosing | src/reader/lexer.rs:457-468 | a token without pushback exactly after `--` on `>`, the markup token with fixed text `-->`; after `-` a second `-` exactly goes pending; otherwise the character is pushed back and the pending `-` or `--` becomes `Character('-')` or `Chunk("--")` |
| Machine.OnCDataClosing | src/reader/lexer.rs:471-482 | a token without pushback exactly after `]]` on `>`, the markup token with fixed text `]]>`; after `]` a second `]` exactly goes pending; otherwise the character is pushed back and the pending `]` or `]]` becomes `Character(']')` or `Chunk("]]")` |
| Machine.Transition | src/reader/lexer.rs:318-331 | only the `<`, `<!`, `<!-` and keyword-prefix states can mismatch |
| Machine.TransitionAccounts | src/reader/lexer.rs:318-482 | every transition is lossless: a pending state adds the character to the pending text; an emitted token renders the pending text plus the character, or only the pending text when the character is pushed back; a mismatch reports exactly the pending text |
| Machine.NormalAccounts | src/reader/lexer.rs:366-382 | `normal` is lossless in the sense of TransitionAccounts |
| Machine.TagOpenedAccounts | src/reader/lexer.rs:385-394 | `tag_opened` is lossless |
| Machine.BangAccounts | src/reader/lexer.rs:397-404 | `comment_or_cdata_or_doctype_started` is lossless |
| Machine.CommentStartedAccounts | src/reader/lexer.rs:407-412 | `comment_started` is lossless and its mismatch chunk is `<!-` |
| Machine.CDataStartedAccounts | src/reader/lexer.rs:415-425 | `cdata_started` is lossless in every substate; each mismatch chunk is the prefix consumed |
| Machine.DoctypeStartedAccounts | src/reader/lexer.rs:428-438 | `doctype_started` is lossless in every substate; each mismatch chunk is the prefix consumed |
| Machine.ClosingAccounts | src/reader/lexer.rs:441-482 | the four closing handlers are lossless, including their fallback tokens `?`, `/`, `-`, `--`, `]` and `]]` |
| Machine.Drive | src/reader/lexer.rs:318-331 | a run of transitions over a word stops only at a position inside the word, on an outcome that is not a state change |
| Driver.New | src/reader/lexer.rs:216-225 | a fresh lexer is at row 0, column 0, in Normal, holding nothing, in strict mode, with end of stream not handled |
| Driver.MismatchMessage | src/reader/lexer.rs:359 | the message is `Unexpected token `, the chunk, ` before ` and the character: the chunk stands at offset 17, the character comes last, and the message is 26 characters longer than the chunk |
| Driver.Advance | src/reader/lexer.rs:306-311 | the row goes up by one exactly on a newline; otherwise the row stays and the column moves one on |
| Driver.Apply | src/reader/lexer.rs:334-363 | dispatching an outcome leaves row, column, skip_errors and the end-of-stream flag alone, and returns no result exactly for `move_to` |
| Driver.ApplyResults | src/reader/lexer.rs:334-363 | `move_to_with_unread` and `handle_error` hold the character; an error comes exactly from a strict mismatch, keeps the state and points at the chunk's start; a lenient mismatch returns the chunk and goes to Normal; every other outcome moves to its state |
| Driver.Feed | src/reader/lexer.rs:305-315 | reading a character moves the position as Advance says, keeps skip_errors and the end-of-stream flag, and returns no result exactly when the state's transition is a `move_to` |
| Driver.Finalize | src/reader/lexer.rs:279-298 | end of stream is marked handled; nothing exactly in Normal; an error at the current row and column exactly in the unfinished states; otherwise a token rendering the pending text |
| Driver.ReadLoop | src/reader/lexer.rs:271-298 | the read loop never moves the cursor backwards or past the end; it returns nothing only at the end of the input with end of stream handled |
| Driver.ReadLoopStep | src/reader/lexer.rs:272-277 | one turn of the loop: a token ends the call after that character, no token continues from the next one |
| Driver.NextTokenSpec | src/reader/lexer.rs:256-299 | a call keeps the cursor within the input and returns nothing only with end of stream handled, either from before or after reading to the end |
| Driver.Run | src/reader/lexer.rs:256-299 | `n` calls give `n` results and a cursor within the input; a last result of nothing means end of stream was handled |
| Driver.RunStep | src/reader/lexer.rs:256-299 | `n + 1` calls are the first call followed by `n` calls from the fields and cursor it leaves |
| Lexer.CharSource.constructor | src/reader/lexer.rs:272 | a source over a text starts at its first character |
| Lexer.CharSource.ReadChar | src/reader/lexer.rs:272 | returns the next character and advances the cursor, or nothing at the end |
| Lexer.PullLexer.constructor | src/reader/lexer.rs:216-225 | the fields equal Driver.New |
| Lexer.PullLexer.EnableErrors | src/reader/lexer.rs:241 | clears skip_errors and changes no other field |
| Lexer.PullLexer.DisableErrors | src/reader/lexer.rs:246 | sets skip_errors and changes no other field |
| Lexer.PullLexer.MoveTo | src/reader/lexer.rs:334-337 | changes only the state and returns no token |
| Lexer.PullLexer.MoveToWith | src/reader/lexer.rs:340-343 | changes only the state and returns the token |
| Lexer.PullLexer.MoveToWithUnread | src/reader/lexer.rs:346-349 | holds the character, changes the state and returns the token |
| Lexer.PullLexer.HandleError | src/reader/lexer.rs:351-363 | holds the character; in lenient mode returns the chunk and goes to Normal; in strict mode returns the error at column `col - len(chunk) - 1` and keeps the state |
| Lexer.PullLexer.DispatchChar | src/reader/lexer.rs:318-331 | carries out the current state's transition on the character |
| Lexer.PullLexer.ReadNextToken | src/reader/lexer.rs:306-315 | counts the character into row and column, then dispatches it |
| Lexer.PullLexer.NextToken | src/reader/lexer.rs:256-299 | the result, the new fields and the new cursor are those of Driver.NextTokenSpec |
| Lexer.PullLexer.ReadAndDispatch | src/reader/lexer.rs:272-277 | one turn of the read loop: at the end of the input nothing changes; otherwise one character is read and the loop's result follows Driver.ReadLoop |
| Lexer.PullLexer.HandleEndOfStream | src/reader/lexer.rs:279-298 | the fields and result are those of Driver.Finalize |
| Keywords.DriveAccounts | src/reader/lexer.rs:366-482 | over any word, the machine loses and invents no character |
| Keywords.FirstStepConsistent | src/reader/lexer.rs:318-331 | a word whose first character stops the machine is accounted for by that step |
| Keywords.DriveConsistentCons | src/reader/lexer.rs:318-331 | a pending step followed by an accounted run is an accounted run |
| Keywords.DriveAppend | src/reader/lexer.rs:318-331 | a word that keeps the machine pending can be split off the front of a longer word |
| Keywords.StayAfter | src/reader/lexer.rs:397-438 | extending a pending word after `<!` by a state-changing character keeps it pending |
| Keywords.StopAfter | src/reader/lexer.rs:397-438 | extending a pending word after `<!` by a stopping character stops at that character |
| Keywords.DriveOne | src/reader/lexer.rs:318-331 | a one-character word stops at once on a transition that is not a state change |
| Keywords.CDataPrefixStaysPending | src/reader/lexer.rs:397-425 | every proper prefix of `[CDATA[` after `<!` stays pending, in the substate of that prefix |
| Keywords.DoctypePrefixStaysPending | src/reader/lexer.rs:428-438 | every proper prefix of `DOCTYPE` after `<!` stays pending, in the substate of that prefix |
| Keywords.CDataStageMismatch | src/reader/lexer.rs:415-425 | in the substate of a prefix of `[CDATA[`, a character other than the next one reports `<!` plus that prefix |
| Keywords.DoctypeStageMismatch | src/reader/lexer.rs:428-438 | in the substate of a prefix of `DOCTYPE`, a character other than the next one reports `<!` plus that prefix |
| Keywords.MismatchAfter | src/reader/lexer.rs:397-438 | after a pending word following `<!`, a mismatch reports `<!` plus the whole word |
| Keywords.EmittedAfterBang | src/reader/lexer.rs:397-438 | a token that ends a word after `<!` renders as `<!` plus the word |
| Keywords.CDataKeywordStarts | src/reader/lexer.rs:415-425 | `[CDATA[` after `<!` emits CDataStart on its last character |
| Keywords.DoctypeKeywordStarts | src/reader/lexer.rs:428-438 | `DOCTYPE` after `<!` emits DoctypeStart on its last character |
| Keywords.CDataStartOnlyAfterKeyword | src/reader/lexer.rs:397-425 | CDataStart at the end of a word after `<!` implies the word is `[CDATA[` |
| Keywords.DoctypeStartOnlyAfterKeyword | src/reader/lexer.rs:428-438 | DoctypeStart at the end of a word after `<!` implies the word is `DOCTYPE` |
| Keywords.CDataStartExactly | src/reader/lexer.rs:397-425 | after `<!`, a word ends in CDataStart if and only if it is `[CDATA[` |
| Keywords.DoctypeStartExactly | src/reader/lexer.rs:428-438 | after `<!`, a word ends in DoctypeStart if and only if it is `DOCTYPE` |
| Keywords.CDataMismatchChunk | src/reader/lexer.rs:397-425 | breaking off `[CDATA[` after `k` characters reports `<!` plus those `k` characters |
| Keywords.DoctypeMismatchChunk | src/reader/lexer.rs:428-438 | breaking off `DOCTYPE` after `k` characters reports `<!` plus those `k` characters |
| DriverProperties.FeedPosition | src/reader/lexer.rs:306-312 | a newline moves to column 0 of the next row; any other character moves one column on in the same row |
| DriverProperties.ReadLoopPosition | src/reader/lexer.rs:272-312 | the read loop's position is the start position advanced over exactly the characters it read |
| DriverProperties.AdvanceAllWithoutNewline | src/reader/lexer.rs:306-312 | text without a newline keeps the row and moves the column on by its length |
| DriverProperties.NextTokenPosition | src/reader/lexer.rs:263-312 | a call advances the position over the held character and then the characters read, so a pushed-back character is counted twice |
| DriverProperties.ReadLoopWhilePending | src/reader/lexer.rs:272-277 | characters that keep the machine pending are read without a result |
| DriverProperties.ExhaustedStaysExhausted | src/reader/lexer.rs:258-260 | once end of stream is handled, every later call returns nothing and changes no field and not the cursor |
| DriverProperties.NothingStaysNothing | src/reader/lexer.rs:258-280 | after a call that returns nothing, all later calls return nothing and change nothing |
| DriverProperties.EndOfStreamFallbacks | src/reader/lexer.rs:286-295 | pending `?`, `/`, `-` and `]` end the stream as that Character; pending `]]` as `Chunk("]]")` |
| DriverProperties.EndOfStreamIgnoresMode | src/reader/lexer.rs:280-298 | finalization does not depend on skip_errors |
| DriverProperties.StrictMismatch | src/reader/lexer.rs:351-363 | a strict mismatch holds the character, keeps the state, and errs with `Unexpected token <chunk> before <c>` at column `col - len(chunk) - 1` |
| DriverProperties.StrictMismatchRepeats | src/reader/lexer.rs:263-268 | the next call re-dispatches the held character in the same state and returns the same message without reading input |
| DriverProperties.StrictMismatchForever | src/reader/lexer.rs:351-363 | once a strict mismatch is held, every later call returns the same message and reads nothing |
| DriverProperties.LenientMismatch | src/reader/lexer.rs:351-355 | a lenient mismatch returns the pending text as a Chunk, goes to Normal and holds the character |
| DriverProperties.LenientResumesWithHeldChar | src/reader/lexer.rs:263-268 | the next call returns the token the held character makes from Normal and reads no input |
| DriverProperties.ReadLoopLenient | src/reader/lexer.rs:272-298 | in lenient mode the read loop errs only at end of stream |
| DriverProperties.LenientErrorsOnlyAtEnd | src/reader/lexer.rs:256-299 | in lenient mode a call returns no error except the end-of-stream error |
| DriverProperties.FeedAccounts | src/reader/lexer.rs:306-363 | reading a character moves it, with the pending text, into the result, the new pending text or the held slot |
| DriverProperties.ReadLoopAccounts | src/reader/lexer.rs:271-298 | the read loop keeps the input accounted for: the input read is the tokens, then the pending text, then the held character |
| DriverProperties.AccountedStep | src/reader/lexer.rs:272-277 | one character read keeps the input accounted for |
| DriverProperties.AccountedHeld | src/reader/lexer.rs:263-268 | the re-dispatch of the held character keeps the input accounted for |
| DriverProperties.NextTokenAccounts | src/reader/lexer.rs:256-299 | every call keeps the input accounted for |
| DriverProperties.RunAccounts | src/reader/lexer.rs:256-299 | any number of calls keeps the input accounted for |
| DriverProperties.AccountedCons | src/reader/lexer.rs:256-299 | accounting for one result in front of the rest of a run |
| DriverProperties.RunAccountsCons | src/reader/lexer.rs:256-299 | the accounting after the first call and the calls after it is the accounting after all of them |
| DriverProperties.RenderedCons | src/reader/lexer.rs:55-81 | the renderings of a result in front of others start with its own rendering |
| DriverProperties.AnyErrCons | src/reader/lexer.rs:256-299 | a run with a result in front holds an error exactly if that result is one or the rest holds one |
| DriverProperties.LosslessRun | src/reader/lexer.rs:256-299 | on a fresh lexer in either mode, a run that ends in nothing and returned no error renders back to exactly its input |
| Traces.PendingWithoutNewline | src/reader/lexer.rs:133-154 | no pending text contains a newline |
| Traces.OrdinaryCharacter | src/reader/lexer.rs:366-382 | an ordinary non-whitespace character becomes a Character token |
| Traces.WhitespaceCharacter | src/reader/lexer.rs:366-382 | an ordinary whitespace character becomes a Whitespace token |
| Traces.FirstCallMismatch | src/reader/lexer.rs:256-277 | the first call on a pending prefix broken by a character: in strict mode the error at column 0 with the state kept, in lenient mode the prefix as a Chunk |
| Traces.MismatchAfterStartStrict | src/reader/lexer.rs:351-363 | a fresh strict lexer errs at row 0, column 0 on a broken prefix |
| Traces.MismatchAfterStartLenient | src/reader/lexer.rs:351-355 | a fresh lenient lexer returns the prefix, the breaking character's token, then nothing |
| Traces.EndOfStreamAfterStart | src/reader/lexer.rs:279-298 | a fresh lexer on a pending prefix finalizes at the prefix's end, then returns nothing |
| Traces.BangIsPending | src/reader/lexer.rs:366-404 | `<!` leaves the machine in CommentOrCDataOrDoctypeStarted |
| Traces.PendingAfterBang | src/reader/lexer.rs:366-404 | a word pending after `<!` is pending after `<` and `!` from Normal |
| Traces.CommentStartIsPending | src/reader/lexer.rs:366-412 | `<!-` leaves the machine in CommentStarted |
| Traces.EndOfStreamQuestionMark | src/reader/lexer.rs:673 | `?` gives Character('?'), then nothing |
| Traces.EndOfStreamSlash | src/reader/lexer.rs:674 | `/` gives Character('/'), then nothing |
| Traces.EndOfStreamDash | src/reader/lexer.rs:675 | `-` gives Character('-'), then nothing |
| Traces.EndOfStreamBracket | src/reader/lexer.rs:676 | `]` gives Character(']'), then nothing |
| Traces.EndOfStreamBrackets | src/reader/lexer.rs:677 | `]]` gives Chunk("]]"), then nothing |
| Traces.EndOfStreamAfterLt | src/reader/lexer.rs:689 | `<` gives the end-of-stream error at (0, 1), then nothing |
| Traces.EndOfStreamAfterBang | src/reader/lexer.rs:690 | `<!` gives the error at (0, 2), then nothing |
| Traces.EndOfStreamInCommentStart | src/reader/lexer.rs:691 | `<!-` gives the error at (0, 3), then nothing |
| Traces.EndOfStreamInCDataStart | src/reader/lexer.rs:692-697 | every unfinished prefix of `<![CDATA[` gives the error at the column after it, then nothing |
| Traces.EndOfStreamAfterDashes | src/reader/lexer.rs:698 | `--` gives the error at (0, 2), then nothing |
| Traces.ErrorAfterBangStrict | src/reader/lexer.rs:703-706 | `<!x` errs with `Unexpected token <! before x` at (0, 0) |
| Traces.ErrorAfterBangLenient | src/reader/lexer.rs:708-714 | lenient `<!x` gives Chunk("<!"), Character('x'), then nothing |
| Traces.ErrorInCommentStartStrict | src/reader/lexer.rs:719-722 | `<!-` and a tab err with `Unexpected token <!- before \t` at (0, 0) |
| Traces.ErrorInCommentStartLenient | src/reader/lexer.rs:724-730 | lenient `<!-` and a tab give Chunk("<!-"), Whitespace('\t'), then nothing |
| Traces.ErrorInCDataStartStrict | src/reader/lexer.rs:749-756 | every prefix of `<![CDATA[` broken by any other character errs at (0, 0) naming the prefix and the character |
| Traces.ErrorInCDataStartLenient | src/reader/lexer.rs:749-756 | in lenient mode the same input gives the prefix as a Chunk, the character, then nothing |
| Traces.ErrorInDoctypeStartStrict | src/reader/lexer.rs:759-766 | every prefix of `<!DOCTYPE` broken by any other character errs at (0, 0) naming the prefix and the character |
| Traces.ErrorInDoctypeStartLenient | src/reader/lexer.rs:759-766 | in lenient mode the same input gives the prefix as a Chunk, the character, then nothing |
| Traces.PushbackCountedTwice | src/reader/lexer.rs:263-265 | on `<a`, the held `a` is counted again, so the column is 3 after two characters |
| Traces.RedispatchWithoutToken | src/reader/lexer.rs:263-277 | on `?<` the held `<` completes no token, the call reads on and ends in the error at column 3 |
| Traces.NegativeErrorColumn | src/reader/lexer.rs:356-361 | `<!` and a newline err at column -3 in row 1, and the next call repeats it in row 2 |
| Traces.PendingStartRead | src/reader/lexer.rs:271-277 | the first call of a fresh lexer reads a pending prefix without returning and stands after it, in the prefix's state |
| Traces.PendingStartWithoutNewline | src/reader/lexer.rs:366-438 | a prefix that keeps the machine pending from Normal holds no newline |
| Traces.ReadWord | src/reader/lexer.rs:271-277 | a call that reads a pending word and then a character that ends a token returns that token, at the column after them, holding the character back exactly for `move_to_with_unread` |
| Traces.ReadWordAt | src/reader/lexer.rs:271-277 | the same as `ReadWord`, for a word and its end character found at any cursor of any input |
| Traces.ReadOne | src/reader/lexer.rs:271-277 | a call whose first character ends a token returns it after one column |
| Traces.ReadPair | src/reader/lexer.rs:271-277 | a call whose first character goes pending and whose second ends a token returns it after two columns |
| Traces.StayStep | src/reader/lexer.rs:271-277 | a character that goes pending moves the read loop on by one column into the pending state, without returning |
| Traces.ReadTriple | src/reader/lexer.rs:271-277 | a call whose first two characters go pending and whose third ends a token returns it after three columns |
| Traces.ReadQuad | src/reader/lexer.rs:271-277 | a call whose first three characters go pending and whose fourth ends a token returns it after four columns |
| Traces.ReadToEnd | src/reader/lexer.rs:271-298 | a call over a rest of input that keeps the machine pending finalizes the state reached at the end of the input |
| Traces.ReadLoopAtEnd | src/reader/lexer.rs:271-280 | a read loop that starts at the end of the input reads nothing and returns what finalization gives, with end of stream marked handled |
| Traces.HeldEmits | src/reader/lexer.rs:263-268 | a held character that makes a token from Normal is returned without reading input |
| Traces.HeldStays | src/reader/lexer.rs:263-268 | a held character that goes pending from Normal is followed by the read loop from the following state |
| Traces.CDataOpenerIsPending | src/reader/lexer.rs:397-425 | `<![CDATA` keeps the machine pending in the last substate of the CDATA opener |
| Traces.DoctypeOpenerIsPending | src/reader/lexer.rs:397-438 | `<!DOCTYP` keeps the machine pending in the last substate of the DOCTYPE opener |
| Traces.CDataOpenerEnds | src/reader/lexer.rs:415-425 | in the last substate of the CDATA opener, `[` emits CDataStart |
| Traces.DoctypeOpenerEnds | src/reader/lexer.rs:428-438 | in the last substate of the DOCTYPE opener, `E` emits DoctypeStart |
| Traces.CDataOpenerCompletes | src/reader/lexer.rs:397-425 | `<![CDATA` goes pending without a newline and `[` then completes it into CDataStart |
| Traces.DoctypeOpenerCompletes | src/reader/lexer.rs:397-438 | `<!DOCTYP` goes pending without a newline and `E` then completes it into DoctypeStart |
| Traces.OpenerRead | src/reader/lexer.rs:271-277 | a pending opener completed by its next character is one call returning the opener's token |
| Traces.CDataOpenerRead | src/reader/lexer.rs:415-425 | `<![CDATA[` anywhere in the input is one call returning CDataStart after nine columns |
| Traces.DoctypeOpenerRead | src/reader/lexer.rs:428-438 | `<!DOCTYPE` anywhere in the input is one call returning DoctypeStart after nine columns |
| Traces.ReplaysCons | src/reader/lexer.rs:256-299 | a step followed by a replayed list replays the longer list |
| Traces.ReplaysRun | src/reader/lexer.rs:256-299 | results replayed by successive `next_token` calls are what `Run` returns for that many calls |
| Traces.ReplaysAppend | src/reader/lexer.rs:256-299 | two replayed lists, the second starting where the first ends, replay as one |
| Traces.ReplaysToLast | src/reader/lexer.rs:256-299 | a non-empty replayed list ends where its last step leaves the fields and the cursor |
| Traces.ReplaysToAppend | src/reader/lexer.rs:256-299 | two replayed lists, the second starting where the first ends, replay as one and end where the second ends |
| Traces.SpecialCharsCall1 | src/reader/lexer.rs:597 | call 1 of `special_chars_test` reads `?x` and returns `Character('?')`, holding `x` back |
| Traces.SpecialCharsCall2 | src/reader/lexer.rs:598 | call 2 of `special_chars_test` takes back the held `x` and returns `Character('x')` |
| Traces.SpecialCharsCall3 | src/reader/lexer.rs:599 | call 3 of `special_chars_test` reads `!` and returns `Character('!')` |
| Traces.SpecialCharsCall4 | src/reader/lexer.rs:600 | call 4 of `special_chars_test` reads `+` and returns `Character('+')` |
| Traces.SpecialCharsCall5 | src/reader/lexer.rs:601 | call 5 of `special_chars_test` reads ` ` and returns `Whitespace(' ')` |
| Traces.SpecialCharsCall6 | src/reader/lexer.rs:602 | call 6 of `special_chars_test` reads `//` and returns `Character('/')`, holding `/` back |
| Traces.SpecialCharsCall7 | src/reader/lexer.rs:603 | call 7 of `special_chars_test` takes back the held `/`, reads ` ` and returns `Character('/')`, holding ` ` back |
| Traces.SpecialCharsCall8 | src/reader/lexer.rs:604 | call 8 of `special_chars_test` takes back the held ` ` and returns `Whitespace(' ')` |
| Traces.SpecialCharsCall9 | src/reader/lexer.rs:605 | call 9 of `special_chars_test` reads `-|` and returns `Character('-')`, holding `|` back |
| Traces.SpecialCharsCall10 | src/reader/lexer.rs:606 | call 10 of `special_chars_test` takes back the held `|` and returns `Character('|')` |
| Traces.SpecialCharsCall11 | src/reader/lexer.rs:607 | call 11 of `special_chars_test` reads ` ` and returns `Whitespace(' ')` |
| Traces.SpecialCharsCall12 | src/reader/lexer.rs:608 | call 12 of `special_chars_test` reads `]z` and returns `Character(']')`, holding `z` back |
| Traces.SpecialCharsCall13 | src/reader/lexer.rs:609 | call 13 of `special_chars_test` takes back the held `z` and returns `Character('z')` |
| Traces.SpecialCharsCall14 | src/reader/lexer.rs:610 | call 14 of `special_chars_test` reads `]]` and returns `Chunk("]]")` |
| Traces.SpecialCharsCall15 | src/reader/lexer.rs:612 | call 15 of `special_chars_test` reads nothing and returns nothing, the stream having ended |
| Traces.SpecialCharsReplays3 | src/reader/lexer.rs:607-612 | calls 11 to 15 of `special_chars_test` return its last four tokens and then nothing |
| Traces.SpecialCharsReplays2 | src/reader/lexer.rs:602-612 | calls 6 to 15 of `special_chars_test` return its last nine tokens and then nothing |
| Traces.SpecialCharsReplays1 | src/reader/lexer.rs:597-612 | calls 1 to 15 of `special_chars_test` return its fourteen tokens and then nothing |
| Traces.SpecialCharsTest | src/reader/lexer.rs:591-613 | `special_chars_test`: `?x!+ // -| ]z]]` gives the fourteen tokens of the test and then nothing |
| Traces.CDataCall1 | src/reader/lexer.rs:622 | call 1 of `cdata_test` reads `<a` and returns `OpeningTagStart`, holding `a` back |
| Traces.CDataCall2 | src/reader/lexer.rs:623 | call 2 of `cdata_test` takes back the held `a` and returns `Character('a')` |
| Traces.CDataCall3 | src/reader/lexer.rs:624 | call 3 of `cdata_test` reads `>` and returns `TagEnd` |
| Traces.CDataCall4 | src/reader/lexer.rs:625 | call 4 of `cdata_test` reads `<![CDATA[` and returns `CDataStart` |
| Traces.CDataCall5 | src/reader/lexer.rs:626 | call 5 of `cdata_test` reads `x` and returns `Character('x')` |
| Traces.CDataCall6 | src/reader/lexer.rs:627 | call 6 of `cdata_test` reads ` ` and returns `Whitespace(' ')` |
| Traces.CDataCall7 | src/reader/lexer.rs:628 | call 7 of `cdata_test` reads `y` and returns `Character('y')` |
| Traces.CDataCall8 | src/reader/lexer.rs:629 | call 8 of `cdata_test` reads ` ` and returns `Whitespace(' ')` |
| Traces.CDataCall9 | src/reader/lexer.rs:630 | call 9 of `cdata_test` reads `?]` and returns `Character('?')`, holding `]` back |
| Traces.CDataCall10 | src/reader/lexer.rs:631 | call 10 of `cdata_test` takes back the held `]`, reads `]>` and returns `CDataEnd` |
| Traces.CDataCall11 | src/reader/lexer.rs:632 | call 11 of `cdata_test` reads ` ` and returns `Whitespace(' ')` |
| Traces.CDataCall12 | src/reader/lexer.rs:633 | call 12 of `cdata_test` reads `</` and returns `ClosingTagStart` |
| Traces.CDataCall13 | src/reader/lexer.rs:634 | call 13 of `cdata_test` reads `a` and returns `Character('a')` |
| Traces.CDataCall14 | src/reader/lexer.rs:635 | call 14 of `cdata_test` reads `>` and returns `TagEnd` |
| Traces.CDataCall15 | src/reader/lexer.rs:637 | call 15 of `cdata_test` reads nothing and returns nothing, the stream having ended |
| Traces.CDataReplays3 | src/reader/lexer.rs:632-637 | calls 11 to 15 of `cdata_test` return its last four tokens and then nothing |
| Traces.CDataReplays2 | src/reader/lexer.rs:627-637 | calls 6 to 15 of `cdata_test` return its last nine tokens and then nothing |
| Traces.CDataReplays1 | src/reader/lexer.rs:622-637 | calls 1 to 15 of `cdata_test` return its fourteen tokens and then nothing |
| Traces.CDataTest | src/reader/lexer.rs:616-638 | `cdata_test`: `<a><![CDATA[x y ?]]> </a>` gives the fourteen tokens of the test and then nothing |
| Traces.DoctypeCall1 | src/reader/lexer.rs:646 | call 1 of `doctype_test` reads `<a` and returns `OpeningTagStart`, holding `a` back |
| Traces.DoctypeCall2 | src/reader/lexer.rs:647 | call 2 of `doctype_test` takes back the held `a` and returns `Character('a')` |
| Traces.DoctypeCall3 | src/reader/lexer.rs:648 | call 3 of `doctype_test` reads `>` and returns `TagEnd` |
| Traces.DoctypeCall4 | src/reader/lexer.rs:649 | call 4 of `doctype_test` reads `<!DOCTYPE` and returns `DoctypeStart` |
| Traces.DoctypeCall5 | src/reader/lexer.rs:650 | call 5 of `doctype_test` reads ` ` and returns `Whitespace(' ')` |
| Traces.DoctypeCall6 | src/reader/lexer.rs:651 | call 6 of `doctype_test` reads `a` and returns `Character('a')` |
| Traces.DoctypeCall7 | src/reader/lexer.rs:652 | call 7 of `doctype_test` reads `b` and returns `Character('b')` |
| Traces.DoctypeCall8 | src/reader/lexer.rs:653 | call 8 of `doctype_test` reads ` ` and returns `Whitespace(' ')` |
| Traces.DoctypeCall9 | src/reader/lexer.rs:654 | call 9 of `doctype_test` reads `x` and returns `Character('x')` |
| Traces.DoctypeCall10 | src/reader/lexer.rs:655 | call 10 of `doctype_test` reads `x` and returns `Character('x')` |
| Traces.DoctypeCall11 | src/reader/lexer.rs:656 | call 11 of `doctype_test` reads ` ` and returns `Whitespace(' ')` |
| Traces.DoctypeCall12 | src/reader/lexer.rs:657 | call 12 of `doctype_test` reads `z` and returns `Character('z')` |
| Traces.DoctypeCall13 | src/reader/lexer.rs:658 | call 13 of `doctype_test` reads `>` and returns `TagEnd` |
| Traces.DoctypeCall14 | src/reader/lexer.rs:659 | call 14 of `doctype_test` reads ` ` and returns `Whitespace(' ')` |
| Traces.DoctypeCall15 | src/reader/lexer.rs:661 | call 15 of `doctype_test` reads nothing and returns nothing, the stream having ended |
| Traces.DoctypeReplays3 | src/reader/lexer.rs:656-661 | calls 11 to 15 of `doctype_test` return its last four tokens and then nothing |
| Traces.DoctypeReplays2 | src/reader/lexer.rs:651-661 | calls 6 to 15 of `doctype_test` return its last nine tokens and then nothing |
| Traces.DoctypeReplays1 | src/reader/lexer.rs:646-661 | calls 1 to 15 of `doctype_test` return its fourteen tokens and then nothing |
| Traces.DoctypeTest | src/reader/lexer.rs:641-662 | `doctype_test`: `<a><!DOCTYPE ab xx z> ` gives the fourteen tokens of the test and then nothing |
| SimpleTrace.SimpleCall1 | src/reader/lexer.rs:534 | call 1 of `simple_lexer_test` reads `<a` and returns `OpeningTagStart`, holding `a` back |
| SimpleTrace.SimpleCall2 | src/reader/lexer.rs:535 | call 2 of `simple_lexer_test` takes back the held `a` and returns `Character('a')` |
| SimpleTrace.SimpleCall3 | src/reader/lexer.rs:536 | call 3 of `simple_lexer_test` reads a space and returns `Whitespace(' ')` |
| SimpleTrace.SimpleCall4 | src/reader/lexer.rs:537 | call 4 of `simple_lexer_test` reads `p` and returns `Character('p')` |
| SimpleTrace.SimpleCall5 | src/reader/lexer.rs:538 | call 5 of `simple_lexer_test` reads `=` and returns `EqualsSign` |
| SimpleTrace.SimpleCall6 | src/reader/lexer.rs:539 | call 6 of `simple_lexer_test` reads `'` and returns `SingleQuote` |
| SimpleTrace.SimpleCall7 | src/reader/lexer.rs:540 | call 7 of `simple_lexer_test` reads `q` and returns `Character('q')` |
| SimpleTrace.SimpleCall8 | src/reader/lexer.rs:541 | call 8 of `simple_lexer_test` reads `'` and returns `SingleQuote` |
| SimpleTrace.SimpleCall9 | src/reader/lexer.rs:542 | call 9 of `simple_lexer_test` reads `>` and returns `TagEnd` |
| SimpleTrace.SimpleCall10 | src/reader/lexer.rs:543 | call 10 of `simple_lexer_test` reads a space and returns `Whitespace(' ')` |
| SimpleTrace.SimpleCall11 | src/reader/lexer.rs:544 | call 11 of `simple_lexer_test` reads `x` and returns `Character('x')` |
| SimpleTrace.SimpleCall12 | src/reader/lexer.rs:545 | call 12 of `simple_lexer_test` reads `<b` and returns `OpeningTagStart`, holding `b` back |
| SimpleTrace.SimpleCall13 | src/reader/lexer.rs:546 | call 13 of `simple_lexer_test` takes back the held `b` and returns `Character('b')` |
| SimpleTrace.SimpleCall14 | src/reader/lexer.rs:547 | call 14 of `simple_lexer_test` reads a space and returns `Whitespace(' ')` |
| SimpleTrace.SimpleCall15 | src/reader/lexer.rs:548 | call 15 of `simple_lexer_test` reads `z` and returns `Character('z')` |
| SimpleTrace.SimpleCall16 | src/reader/lexer.rs:549 | call 16 of `simple_lexer_test` reads `=` and returns `EqualsSign` |
| SimpleTrace.SimpleCall17 | src/reader/lexer.rs:550 | call 17 of `simple_lexer_test` reads `"` and returns `DoubleQuote` |
| SimpleTrace.SimpleCall18 | src/reader/lexer.rs:551 | call 18 of `simple_lexer_test` reads `y` and returns `Character('y')` |
| SimpleTrace.SimpleCall19 | src/reader/lexer.rs:552 | call 19 of `simple_lexer_test` reads `"` and returns `DoubleQuote` |
| SimpleTrace.SimpleCall20 | src/reader/lexer.rs:553 | call 20 of `simple_lexer_test` reads `>` and returns `TagEnd` |
| SimpleTrace.SimpleCall21 | src/reader/lexer.rs:554 | call 21 of `simple_lexer_test` reads `d` and returns `Character('d')` |
| SimpleTrace.SimpleCall22 | src/reader/lexer.rs:555 | call 22 of `simple_lexer_test` reads a tab and returns `Whitespace('\t')` |
| SimpleTrace.SimpleCall23 | src/reader/lexer.rs:556 | call 23 of `simple_lexer_test` reads `</` and returns `ClosingTagStart` |
| SimpleTrace.SimpleCall24 | src/reader/lexer.rs:557 | call 24 of `simple_lexer_test` reads `b` and returns `Character('b')` |
| SimpleTrace.SimpleCall25 | src/reader/lexer.rs:558 | call 25 of `simple_lexer_test` reads `>` and returns `TagEnd` |
| SimpleTrace.SimpleCall26 | src/reader/lexer.rs:559 | call 26 of `simple_lexer_test` reads `</` and returns `ClosingTagStart` |
| SimpleTrace.SimpleCall27 | src/reader/lexer.rs:560 | call 27 of `simple_lexer_test` reads `a` and returns `Character('a')` |
| SimpleTrace.SimpleCall28 | src/reader/lexer.rs:561 | call 28 of `simple_lexer_test` reads `>` and returns `TagEnd` |
| SimpleTrace.SimpleCall29 | src/reader/lexer.rs:562 | call 29 of `simple_lexer_test` reads `<p` and returns `OpeningTagStart`, holding `p` back |
| SimpleTrace.SimpleCall30 | src/reader/lexer.rs:563 | call 30 of `simple_lexer_test` takes back the held `p` and returns `Character('p')` |
| SimpleTrace.SimpleCall31 | src/reader/lexer.rs:564 | call 31 of `simple_lexer_test` reads `/>` and returns `EmptyTagEnd` |
| SimpleTrace.SimpleCall32 | src/reader/lexer.rs:565 | call 32 of `simple_lexer_test` reads a space and returns `Whitespace(' ')` |
| SimpleTrace.SimpleCall33 | src/reader/lexer.rs:566 | call 33 of `simple_lexer_test` reads `<?` and returns `ProcessingInstructionStart` |
| SimpleTrace.SimpleCall34 | src/reader/lexer.rs:567 | call 34 of `simple_lexer_test` reads `n` and returns `Character('n')` |
| SimpleTrace.SimpleCall35 | src/reader/lexer.rs:568 | call 35 of `simple_lexer_test` reads `m` and returns `Character('m')` |
| SimpleTrace.SimpleCall36 | src/reader/lexer.rs:569 | call 36 of `simple_lexer_test` reads a space and returns `Whitespace(' ')` |
| SimpleTrace.SimpleCall37 | src/reader/lexer.rs:570 | call 37 of `simple_lexer_test` reads `?>` and returns `ProcessingInstructionEnd` |
| SimpleTrace.SimpleCall38 | src/reader/lexer.rs:571 | call 38 of `simple_lexer_test` reads a space and returns `Whitespace(' ')` |
| SimpleTrace.SimpleCall39 | src/reader/lexer.rs:572 | call 39 of `simple_lexer_test` reads `<!--` and returns `CommentStart` |
| SimpleTrace.SimpleCall40 | src/reader/lexer.rs:573 | call 40 of `simple_lexer_test` reads a space and returns `Whitespace(' ')` |
| SimpleTrace.SimpleCall41 | src/reader/lexer.rs:574 | call 41 of `simple_lexer_test` reads `a` and returns `Character('a')` |
| SimpleTrace.SimpleCall42 | src/reader/lexer.rs:575 | call 42 of `simple_lexer_test` reads a space and returns `Whitespace(' ')` |
| SimpleTrace.SimpleCall43 | src/reader/lexer.rs:576 | call 43 of `simple_lexer_test` reads `c` and returns `Character('c')` |
| SimpleTrace.SimpleCall44 | src/reader/lexer.rs:577 | call 44 of `simple_lexer_test` reads a space and returns `Whitespace(' ')` |
| SimpleTrace.SimpleCall45 | src/reader/lexer.rs:578 | call 45 of `simple_lexer_test` reads `-->` and returns `CommentEnd` |
| SimpleTrace.SimpleCall46 | src/reader/lexer.rs:579 | call 46 of `simple_lexer_test` reads a space and returns `Whitespace(' ')` |
| SimpleTrace.SimpleCall47 | src/reader/lexer.rs:580 | call 47 of `simple_lexer_test` reads `&` and returns `ReferenceStart` |
| SimpleTrace.SimpleCall48 | src/reader/lexer.rs:581 | call 48 of `simple_lexer_test` reads `n` and returns `Character('n')` |
| SimpleTrace.SimpleCall49 | src/reader/lexer.rs:582 | call 49 of `simple_lexer_test` reads `b` and returns `Character('b')` |
| SimpleTrace.SimpleCall50 | src/reader/lexer.rs:583 | call 50 of `simple_lexer_test` reads `s` and returns `Character('s')` |
| SimpleTrace.SimpleCall51 | src/reader/lexer.rs:584 | call 51 of `simple_lexer_test` reads `p` and returns `Character('p')` |
| SimpleTrace.SimpleCall52 | src/reader/lexer.rs:585 | call 52 of `simple_lexer_test` reads `;` and returns `ReferenceEnd` |
| SimpleTrace.SimpleCall53 | src/reader/lexer.rs:587 | call 53 of `simple_lexer_test` reads nothing and returns nothing, the stream having ended |
| SimpleTrace.SimpleReplays1 | src/reader/lexer.rs:534-538 | calls 1 to 5 of `simple_lexer_test` return its tokens 1 to 5 |
| SimpleTrace.SimpleReplays2 | src/reader/lexer.rs:539-543 | calls 6 to 10 of `simple_lexer_test` return its tokens 6 to 10 |
| SimpleTrace.SimpleReplays3 | src/reader/lexer.rs:544-548 | calls 11 to 15 of `simple_lexer_test` return its tokens 11 to 15 |
| SimpleTrace.SimpleReplays4 | src/reader/lexer.rs:549-553 | calls 16 to 20 of `simple_lexer_test` return its tokens 16 to 20 |
| SimpleTrace.SimpleReplays5 | src/reader/lexer.rs:554-558 | calls 21 to 25 of `simple_lexer_test` return its tokens 21 to 25 |
| SimpleTrace.SimpleReplays6 | src/reader/lexer.rs:559-563 | calls 26 to 30 of `simple_lexer_test` return its tokens 26 to 30 |
| SimpleTrace.SimpleReplays7 | src/reader/lexer.rs:564-568 | calls 31 to 35 of `simple_lexer_test` return its tokens 31 to 35 |
| SimpleTrace.SimpleReplays8 | src/reader/lexer.rs:569-573 | calls 36 to 40 of `simple_lexer_test` return its tokens 36 to 40 |
| SimpleTrace.SimpleReplays9 | src/reader/lexer.rs:574-578 | calls 41 to 45 of `simple_lexer_test` return its tokens 41 to 45 |
| SimpleTrace.SimpleReplays10 | src/reader/lexer.rs:579-583 | calls 46 to 50 of `simple_lexer_test` return its tokens 46 to 50 |
| SimpleTrace.SimpleReplays11 | src/reader/lexer.rs:584-587 | calls 51 to 53 of `simple_lexer_test` return its tokens 51 to 52 and then nothing |
| SimpleTrace.SimpleLexerTest | src/reader/lexer.rs:527-588 | `simple_lexer_test`: `<a p='q'> x<b z="y">d`, a tab, `</b></a><p/> <?nm ?> <!-- a c --> &nbsp;` gives the 52 tokens of the test and then nothing |

## Left out

- The character source: the `Buffer` trait, `read_char`, the `for_each!` macro and the `.ok()` that turns a read error into end of stream (line 272) are I/O. The source is modelled as a finite text with a cursor, so a read error cannot occur.
- `common::is_whitespace_char` and `common::is_name_char`: their definitions are not part of this model. They are a parameter, and no fact about them is assumed beyond what each trace lemma requires.
- `common::Error`, `Error::new` and `HasPosition` (lines 227-235, 302-304): modelled only as an error value carrying the lexer's current row and column and the message.
- The `fmt::Show` delegation and the formatter plumbing (lines 55-87): rendering is a plain function from tokens to strings.
- The error column: `col - len(chunk) - 1` is unsigned in the source and underflows after a newline. The model keeps it as a plain integer, which can be negative, and does not model a panic or a wrap-around.
- Row and column overflow of `usize` is not modelled; both are unbounded naturals.
- The end-of-stream part and one turn of the read loop of `next_token` are separate methods, `HandleEndOfStream` and `ReadAndDispatch`, so that the loop's invariant stays small. `NextToken` runs the same steps in the same order.
- The test module's `MemReader` and assertion macros are not modelled. The tests are replayed as lemmas about `Run`.
