/**
 * The behaviour the unit tests at the end of src/reader/lexer.rs check, as
 * lemmas about the model. The tests run with the real `common` character
 * classes; here each lemma requires only the facts about the classes that
 * its input needs.
 */
module Traces {
  import opened Tokens
  import opened Machine
  import opened Driver
  import opened Keywords
  import opened DriverProperties

  // ---------------------------------------------------------------------------
  // Inputs that start with a pending prefix

  /** No pending text contains a newline. */
  lemma PendingWithoutNewline(st: State)
    ensures '\n' !in Pending(st)
  {
  }

  /** In Normal, a character with no role of its own and not whitespace is a Character token. */
  lemma OrdinaryCharacter(c: char, cc: CharClasses)
    requires !cc.isWhitespace(c) && c !in "<>/=\"'?-]&;"
    ensures OnNormal(c, cc) == Emit(Normal, Character(c))
  {
  }

  /** In Normal, whitespace with no role of its own is a Whitespace token. */
  lemma WhitespaceCharacter(c: char, cc: CharClasses)
    requires cc.isWhitespace(c) && c !in "<>/=\"'?-]&;"
    ensures OnNormal(c, cc) == Emit(Normal, Whitespace(c))
  {
  }

  /**
   * The first call on a fresh lexer whose input is a word `w` that keeps the
   * machine pending (in state `s`), then a character `c` that is a mismatch
   * there.
   */
  lemma FirstCallMismatch(w: seq<char>, s: State, c: char, skip: bool, cc: CharClasses)
    requires Drive(Normal, w, cc) == Going(s) && c != '\n' && Transition(s, c, cc).Mismatch?
    ensures NextTokenSpec(New().(skipErrors := skip), w + [c], 0, cc)
            == if skip then Call(Some(Ok(Chunk(w))), LexerState(0, |w| + 1, Some(c), Normal, true, false), |w| + 1)
               else Call(Some(Err(Error(0, 0, MismatchMessage(w, c)))),
                         LexerState(0, |w| + 1, Some(c), s, false, false), |w| + 1)
  {
    var input := w + [c];
    PendingStartRead(w, s, c, skip, cc);
    var ls1 := LexerState(0, |w|, None, s, skip, false);
    assert input[|w|] == c;
    DriveAccounts(Normal, w, cc);
    TransitionAccounts(s, c, cc);
    assert Transition(s, c, cc) == Mismatch(w);
    var fed := Apply(ls1.(col := |w| + 1), Mismatch(w), c);
    assert Feed(ls1, c, cc) == fed;
    ReadLoopStep(ls1, input, |w|, cc, fed);
  }

  /** The first call of a fresh lexer reads a pending start `w` without returning. */
  lemma PendingStartRead(w: seq<char>, s: State, c: char, skip: bool, cc: CharClasses)
    requires Drive(Normal, w, cc) == Going(s) && c != '\n'
    ensures NextTokenSpec(New().(skipErrors := skip), w + [c], 0, cc)
            == ReadLoop(LexerState(0, |w|, None, s, skip, false), w + [c], |w|, cc)
  {
    var input := w + [c];
    var ls0 := New().(skipErrors := skip);
    PendingStartWithoutNewline(w, s, cc);
    AdvanceAllWithoutNewline(0, 0, w);
    assert input[0..0 + |w|] == w;
    ReadLoopWhilePending(ls0, input, 0, |w|, cc);
  }

  /** A pending start holds no newline. */
  lemma PendingStartWithoutNewline(w: seq<char>, s: State, cc: CharClasses)
    requires Drive(Normal, w, cc) == Going(s)
    ensures '\n' !in w
  {
    DriveAccounts(Normal, w, cc);
    PendingWithoutNewline(s);
  }

  /**
   * A fresh strict lexer that mismatches right after a pending start: the
   * first call is an error at column 0 naming the start and the character.
   */
  lemma MismatchAfterStartStrict(w: seq<char>, s: State, c: char, cc: CharClasses)
    requires Drive(Normal, w, cc) == Going(s) && c != '\n' && Transition(s, c, cc).Mismatch?
    ensures Run(New(), w + [c], 0, 1, cc).0 == [Some(Err(Error(0, 0, MismatchMessage(w, c))))]
  {
    FirstCallMismatch(w, s, c, false, cc);
  }

  /**
   * A fresh lenient lexer that mismatches right after a pending start: the
   * start comes back as a Chunk, then the character is lexed from Normal
   * (here into the token `t`), then the stream ends.
   */
  lemma MismatchAfterStartLenient(w: seq<char>, s: State, c: char, t: Token, cc: CharClasses)
    requires Drive(Normal, w, cc) == Going(s) && c != '\n' && Transition(s, c, cc).Mismatch?
    requires OnNormal(c, cc) == Emit(Normal, t)
    ensures Run(New().(skipErrors := true), w + [c], 0, 3, cc).0 == [Some(Ok(Chunk(w))), Some(Ok(t)), None]
  {
    var input := w + [c];
    FirstCallMismatch(w, s, c, true, cc);
    var ls1 := LexerState(0, |w| + 1, Some(c), Normal, true, false);
    var second := NextTokenSpec(ls1, input, |w| + 1, cc);
    assert second == Call(Some(Ok(t)), LexerState(0, |w| + 2, None, Normal, true, false), |w| + 1);
    var third := NextTokenSpec(second.after, input, |w| + 1, cc);
    assert third.result == None;
  }

  /**
   * A fresh lexer whose whole input keeps the machine pending (in state
   * `s`): the first call finalizes that state at the column after the
   * input, the second returns nothing.
   */
  lemma EndOfStreamAfterStart(w: seq<char>, s: State, cc: CharClasses)
    requires Drive(Normal, w, cc) == Going(s)
    ensures Run(New(), w, 0, 2, cc).0 == [Finalize(LexerState(0, |w|, None, s, false, false)).1, None]
  {
    assert w[0..|w|] == w;
    ReadLoopWhilePending(New(), w, 0, |w|, cc);
    DriveAccounts(Normal, w, cc);
    PendingWithoutNewline(s);
    AdvanceAllWithoutNewline(0, 0, w);
    var first := NextTokenSpec(New(), w, 0, cc);
    assert first == Call(Finalize(LexerState(0, |w|, None, s, false, false)).1,
                         LexerState(0, |w|, None, s, false, true), |w|);
  }

  /** From Normal, `<!` is pending. */
  lemma BangIsPending(cc: CharClasses)
    ensures Drive(Normal, "<!", cc) == Going(CommentOrCDataOrDoctypeStarted)
  {
    assert "<!"[1..] == "!";
    assert "!"[1..] == [];
  }

  /** From Normal, a word that stays pending after `<!` stays pending after `<!` and that word. */
  lemma PendingAfterBang(p: seq<char>, cc: CharClasses)
    requires Drive(CommentOrCDataOrDoctypeStarted, p, cc).Going?
    ensures Drive(Normal, "<!" + p, cc) == Drive(CommentOrCDataOrDoctypeStarted, p, cc)
  {
    BangIsPending(cc);
    DriveAppend(Normal, "<!", p, cc);
  }

  /** From Normal, `<!-` is pending. */
  lemma CommentStartIsPending(cc: CharClasses)
    ensures Drive(Normal, "<!-", cc) == Going(CommentStarted)
  {
    PendingAfterBang("-", cc);
    assert "<!" + "-" == "<!-";
  }

  // ---------------------------------------------------------------------------
  // The tests

  /** `end_of_stream_handling_ok`: a lone `?` comes back as itself. */
  lemma EndOfStreamQuestionMark(cc: CharClasses)
    ensures Run(New(), "?", 0, 2, cc).0 == [Some(Ok(Character('?'))), None]
  {
    EndOfStreamAfterStart("?", ProcessingInstructionClosing, cc);
  }

  /** `end_of_stream_handling_ok`: a lone `/` comes back as itself. */
  lemma EndOfStreamSlash(cc: CharClasses)
    ensures Run(New(), "/", 0, 2, cc).0 == [Some(Ok(Character('/'))), None]
  {
    EndOfStreamAfterStart("/", EmptyTagClosing, cc);
  }

  /** `end_of_stream_handling_ok`: a lone `-` comes back as itself. */
  lemma EndOfStreamDash(cc: CharClasses)
    ensures Run(New(), "-", 0, 2, cc).0 == [Some(Ok(Character('-'))), None]
  {
    EndOfStreamAfterStart("-", CommentClosing(First), cc);
  }

  /** `end_of_stream_handling_ok`: a lone `]` comes back as itself. */
  lemma EndOfStreamBracket(cc: CharClasses)
    ensures Run(New(), "]", 0, 2, cc).0 == [Some(Ok(Character(']'))), None]
  {
    EndOfStreamAfterStart("]", CDataClosing(First), cc);
  }

  /** `end_of_stream_handling_ok`: a lone `]]` comes back as one Chunk. */
  lemma EndOfStreamBrackets(cc: CharClasses)
    ensures Run(New(), "]]", 0, 2, cc).0 == [Some(Ok(Chunk("]]"))), None]
  {
    assert "]]"[1..] == "]";
    EndOfStreamAfterStart("]]", CDataClosing(Second), cc);
  }

  /** `end_of_stream_handling_error`: an unfinished `<`. */
  lemma EndOfStreamAfterLt(cc: CharClasses)
    ensures Run(New(), "<", 0, 2, cc).0 == [Some(Err(Error(0, 1, EndOfStream))), None]
  {
    EndOfStreamAfterStart("<", TagOpened, cc);
  }

  /** `end_of_stream_handling_error`: an unfinished `<!`. */
  lemma EndOfStreamAfterBang(cc: CharClasses)
    ensures Run(New(), "<!", 0, 2, cc).0 == [Some(Err(Error(0, 2, EndOfStream))), None]
  {
    BangIsPending(cc);
    EndOfStreamAfterStart("<!", CommentOrCDataOrDoctypeStarted, cc);
  }

  /** `end_of_stream_handling_error`: an unfinished `<!-`. */
  lemma EndOfStreamInCommentStart(cc: CharClasses)
    ensures Run(New(), "<!-", 0, 2, cc).0 == [Some(Err(Error(0, 3, EndOfStream))), None]
  {
    CommentStartIsPending(cc);
    EndOfStreamAfterStart("<!-", CommentStarted, cc);
  }

  /** `end_of_stream_handling_error`: `--` outside a comment. */
  lemma EndOfStreamAfterDashes(cc: CharClasses)
    ensures Run(New(), "--", 0, 2, cc).0 == [Some(Err(Error(0, 2, EndOfStream))), None]
  {
    assert "--"[1..] == "-";
    EndOfStreamAfterStart("--", CommentClosing(Second), cc);
  }

  /**
   * `end_of_stream_handling_error`: every unfinished prefix of `<![CDATA[`
   * ends in an error at the column after it.
   */
  lemma EndOfStreamInCDataStart(k: nat, cc: CharClasses)
    requires 1 <= k < |CDataKeyword|
    ensures Run(New(), "<!" + CDataKeyword[..k], 0, 2, cc).0
            == [Some(Err(Error(0, k + 2, EndOfStream))), None]
  {
    CDataPrefixStaysPending(k, cc);
    PendingAfterBang(CDataKeyword[..k], cc);
    EndOfStreamAfterStart("<!" + CDataKeyword[..k], CDataStarted(CDataStage(k)), cc);
  }

  /** `error_in_comment_or_cdata_prefix`: `<!x` in strict mode. */
  lemma ErrorAfterBangStrict(cc: CharClasses)
    ensures Run(New(), "<!x", 0, 1, cc).0 == [Some(Err(Error(0, 0, "Unexpected token <! before x")))]
  {
    assert MismatchMessage("<!", 'x') == "Unexpected token <! before x";
    BangIsPending(cc);
    MismatchAfterStartStrict("<!", CommentOrCDataOrDoctypeStarted, 'x', cc);
    assert "<!" + ['x'] == "<!x";
  }

  /** `error_in_comment_or_cdata_prefix`: `<!x` in lenient mode. */
  lemma ErrorAfterBangLenient(cc: CharClasses)
    requires !cc.isWhitespace('x')
    ensures Run(New().(skipErrors := true), "<!x", 0, 3, cc).0
            == [Some(Ok(Chunk("<!"))), Some(Ok(Character('x'))), None]
  {
    BangIsPending(cc);
    OrdinaryCharacter('x', cc);
    MismatchAfterStartLenient("<!", CommentOrCDataOrDoctypeStarted, 'x', Character('x'), cc);
    assert "<!" + ['x'] == "<!x";
  }

  /** `error_in_comment_started`: `<!-` and a tab, in strict mode. */
  lemma ErrorInCommentStartStrict(cc: CharClasses)
    ensures Run(New(), "<!-\t", 0, 1, cc).0 == [Some(Err(Error(0, 0, "Unexpected token <!- before \t")))]
  {
    assert MismatchMessage("<!-", '\t') == "Unexpected token <!- before \t";
    CommentStartIsPending(cc);
    MismatchAfterStartStrict("<!-", CommentStarted, '\t', cc);
    assert "<!-" + ['\t'] == "<!-\t";
  }

  /** `error_in_comment_started`: `<!-` and a tab, in lenient mode. */
  lemma ErrorInCommentStartLenient(cc: CharClasses)
    requires cc.isWhitespace('\t')
    ensures Run(New().(skipErrors := true), "<!-\t", 0, 3, cc).0
            == [Some(Ok(Chunk("<!-"))), Some(Ok(Whitespace('\t'))), None]
  {
    CommentStartIsPending(cc);
    WhitespaceCharacter('\t', cc);
    MismatchAfterStartLenient("<!-", CommentStarted, '\t', Whitespace('\t'), cc);
    assert "<!-" + ['\t'] == "<!-\t";
  }

  /**
   * `error_in_cdata_started`, strict mode: a prefix of `<![CDATA[` broken
   * off by a character that is not the next one of the keyword is an error
   * at column 0, here for every prefix and every such character.
   */
  lemma ErrorInCDataStartStrict(k: nat, c: char, cc: CharClasses)
    requires 1 <= k < |CDataKeyword| && c != CDataKeyword[k] && c != '\n'
    ensures Run(New(), "<!" + CDataKeyword[..k] + [c], 0, 1, cc).0
            == [Some(Err(Error(0, 0, MismatchMessage("<!" + CDataKeyword[..k], c))))]
  {
    CDataPrefixStaysPending(k, cc);
    CDataStageMismatch(k, c, cc);
    PendingAfterBang(CDataKeyword[..k], cc);
    MismatchAfterStartStrict("<!" + CDataKeyword[..k], CDataStarted(CDataStage(k)), c, cc);
  }

  /**
   * `error_in_cdata_started`, lenient mode: the prefix comes back as a
   * Chunk and an ordinary breaking character as a Character.
   */
  lemma ErrorInCDataStartLenient(k: nat, c: char, cc: CharClasses)
    requires 1 <= k < |CDataKeyword| && c != CDataKeyword[k] && c != '\n'
    requires !cc.isWhitespace(c) && c !in "<>/=\"'?-]&;"
    ensures Run(New().(skipErrors := true), "<!" + CDataKeyword[..k] + [c], 0, 3, cc).0
            == [Some(Ok(Chunk("<!" + CDataKeyword[..k]))), Some(Ok(Character(c))), None]
  {
    CDataPrefixStaysPending(k, cc);
    CDataStageMismatch(k, c, cc);
    PendingAfterBang(CDataKeyword[..k], cc);
    OrdinaryCharacter(c, cc);
    MismatchAfterStartLenient("<!" + CDataKeyword[..k], CDataStarted(CDataStage(k)), c, Character(c), cc);
  }

  /** `error_in_doctype_started`, strict mode: the same for the prefixes of `<!DOCTYPE`. */
  lemma ErrorInDoctypeStartStrict(k: nat, c: char, cc: CharClasses)
    requires 1 <= k < |DoctypeKeyword| && c != DoctypeKeyword[k] && c != '\n'
    ensures Run(New(), "<!" + DoctypeKeyword[..k] + [c], 0, 1, cc).0
            == [Some(Err(Error(0, 0, MismatchMessage("<!" + DoctypeKeyword[..k], c))))]
  {
    DoctypePrefixStaysPending(k, cc);
    DoctypeStageMismatch(k, c, cc);
    PendingAfterBang(DoctypeKeyword[..k], cc);
    MismatchAfterStartStrict("<!" + DoctypeKeyword[..k], DoctypeStarted(DoctypeStage(k)), c, cc);
  }

  /** `error_in_doctype_started`, lenient mode: the same for the prefixes of `<!DOCTYPE`. */
  lemma ErrorInDoctypeStartLenient(k: nat, c: char, cc: CharClasses)
    requires 1 <= k < |DoctypeKeyword| && c != DoctypeKeyword[k] && c != '\n'
    requires !cc.isWhitespace(c) && c !in "<>/=\"'?-]&;"
    ensures Run(New().(skipErrors := true), "<!" + DoctypeKeyword[..k] + [c], 0, 3, cc).0
            == [Some(Ok(Chunk("<!" + DoctypeKeyword[..k]))), Some(Ok(Character(c))), None]
  {
    DoctypePrefixStaysPending(k, cc);
    DoctypeStageMismatch(k, c, cc);
    PendingAfterBang(DoctypeKeyword[..k], cc);
    OrdinaryCharacter(c, cc);
    MismatchAfterStartLenient("<!" + DoctypeKeyword[..k], DoctypeStarted(DoctypeStage(k)), c, Character(c), cc);
  }

  // ---------------------------------------------------------------------------
  // Behaviours of the driver shown on short inputs

  /**
   * A pushed-back character is counted twice: on `<a` the `a` closes the
   * tag start and is held, and dispatching it again moves the column to 3
   * although only two characters were read.
   */
  lemma PushbackCountedTwice(cc: CharClasses)
    requires !cc.isWhitespace('a') && cc.isNameChar('a')
    ensures Run(New(), "<a", 0, 3, cc).0 == [Some(Ok(OpeningTagStart)), Some(Ok(Character('a'))), None]
    ensures Run(New(), "<a", 0, 3, cc).1 == LexerState(0, 3, None, Normal, false, true)
  {
    var input := "<a";
    var ls1 := LexerState(0, 1, None, TagOpened, false, false);
    ReadLoopStep(New(), input, 0, cc, (ls1, None));
    var ls2 := LexerState(0, 2, Some('a'), Normal, false, false);
    ReadLoopStep(ls1, input, 1, cc, (ls2, Some(Ok(OpeningTagStart))));
    OrdinaryCharacter('a', cc);
    var ls3 := LexerState(0, 3, None, Normal, false, false);
    assert NextTokenSpec(ls2, input, 2, cc) == Call(Some(Ok(Character('a'))), ls3, 2);
    assert NextTokenSpec(ls3, input, 2, cc) == Call(None, ls3.(eofHandled := true), 2);
  }

  /**
   * A re-dispatched character that completes no token lets the call read
   * on: on `?<` the `<` ends the `?` and is held; dispatched again (at
   * column 3) it opens a tag, and the stream ends inside it.
   */
  lemma RedispatchWithoutToken(cc: CharClasses)
    ensures Run(New(), "?<", 0, 3, cc).0
            == [Some(Ok(Character('?'))), Some(Err(Error(0, 3, EndOfStream))), None]
  {
    var input := "?<";
    var ls1 := LexerState(0, 1, None, ProcessingInstructionClosing, false, false);
    ReadLoopStep(New(), input, 0, cc, (ls1, None));
    var ls2 := LexerState(0, 2, Some('<'), Normal, false, false);
    ReadLoopStep(ls1, input, 1, cc, (ls2, Some(Ok(Character('?')))));
    var ls3 := LexerState(0, 3, None, TagOpened, false, false);
    assert NextTokenSpec(ls2, input, 2, cc) == ReadLoop(ls3, input, 2, cc);
  }

  /**
   * The error column can go below zero: on `<!` and a newline the row has
   * just moved on and the column was reset to 0, so the error points three
   * columns before it; the held newline is counted again on the next call,
   * which repeats the error one row further down.
   */
  lemma NegativeErrorColumn(cc: CharClasses)
    ensures Run(New(), "<!\n", 0, 2, cc).0
            == [Some(Err(Error(1, -3, MismatchMessage("<!", '\n')))),
                Some(Err(Error(2, -3, MismatchMessage("<!", '\n'))))]
  {
    var input := "<!\n";
    var ls1 := LexerState(0, 1, None, TagOpened, false, false);
    ReadLoopStep(New(), input, 0, cc, (ls1, None));
    var ls2 := LexerState(0, 2, None, CommentOrCDataOrDoctypeStarted, false, false);
    ReadLoopStep(ls1, input, 1, cc, (ls2, None));
    var ls3 := LexerState(1, 0, Some('\n'), CommentOrCDataOrDoctypeStarted, false, false);
    ReadLoopStep(ls2, input, 2, cc, (ls3, Some(Err(Error(1, -3, MismatchMessage("<!", '\n'))))));
    var ls4 := LexerState(2, 0, Some('\n'), CommentOrCDataOrDoctypeStarted, false, false);
    assert NextTokenSpec(ls3, input, 3, cc) == Call(Some(Err(Error(2, -3, MismatchMessage("<!", '\n')))), ls4, 3);
  }

  // ---------------------------------------------------------------------------
  // The token-by-token tests, one call at a time

  /** The fields of a strict lexer in row 0 before end of stream. */
  function At(col: nat, held: Option<char>, st: State): LexerState
  {
    LexerState(0, col, held, st, false, false)
  }

  /**
   * A read loop with nothing held, in state `st`, at the start of a word `w`
   * that keeps the machine pending (reaching `s`) and is followed by a
   * character `c` that ends a token: the call returns that token after
   * `|w| + 1` characters, holding `c` when the token does not take it.
   */
  lemma ReadWord(col: nat, st: State, pre: seq<char>, w: seq<char>, c: char, post: seq<char>, s: State,
                 o: Outcome, cc: CharClasses)
    requires '\n' !in w && c != '\n'
    requires Drive(st, w, cc) == Going(s) && Transition(s, c, cc) == o && (o.Emit? || o.EmitUnread?)
    ensures ReadLoop(At(col, None, st), pre + w + [c] + post, |pre|, cc)
            == Call(Some(Ok(o.tok)), At(col + |w| + 1, if o.EmitUnread? then Some(c) else None, Normal),
                    |pre| + |w| + 1)
  {
    var input, pos := pre + w + [c] + post, |pre|;
    assert input[pos..pos + |w|] == w && input[pos + |w|] == c;
    ReadWordAt(col, st, input, pos, w, c, s, o, cc);
  }

  /** `ReadWord` at a cursor `pos` of any input that holds `w` and then `c` there. */
  lemma ReadWordAt(col: nat, st: State, input: seq<char>, pos: nat, w: seq<char>, c: char, s: State,
                   o: Outcome, cc: CharClasses)
    requires pos + |w| < |input| && input[pos..pos + |w|] == w && input[pos + |w|] == c
    requires '\n' !in w && c != '\n'
    requires Drive(st, w, cc) == Going(s) && Transition(s, c, cc) == o && (o.Emit? || o.EmitUnread?)
    ensures ReadLoop(At(col, None, st), input, pos, cc)
            == Call(Some(Ok(o.tok)), At(col + |w| + 1, if o.EmitUnread? then Some(c) else None, Normal),
                    pos + |w| + 1)
  {
    ReadLoopWhilePending(At(col, None, st), input, pos, |w|, cc);
    AdvanceAllWithoutNewline(0, col, w);
    ReadOne(col + |w|, s, input, pos + |w|, c, o, cc);
  }

  /** A read loop with nothing held whose first character ends a token. */
  lemma ReadOne(col: nat, st: State, input: seq<char>, pos: nat, c: char, o: Outcome, cc: CharClasses)
    requires pos < |input| && input[pos] == c && c != '\n'
    requires Transition(st, c, cc) == o && (o.Emit? || o.EmitUnread?)
    ensures ReadLoop(At(col, None, st), input, pos, cc)
            == Call(Some(Ok(o.tok)), At(col + 1, if o.EmitUnread? then Some(c) else None, Normal), pos + 1)
  {
    TransitionAccounts(st, c, cc);
    ReadLoopStep(At(col, None, st), input, pos, cc, Feed(At(col, None, st), c, cc));
  }

  /** A read loop with nothing held whose first character `a` goes pending and whose second ends a token. */
  lemma ReadPair(col: nat, st: State, input: seq<char>, pos: nat, a: char, s: State, c: char, o: Outcome,
                 cc: CharClasses)
    requires pos + 1 < |input| && input[pos] == a && input[pos + 1] == c && a != '\n' && c != '\n'
    requires Transition(st, a, cc) == Stay(s) && Transition(s, c, cc) == o && (o.Emit? || o.EmitUnread?)
    ensures ReadLoop(At(col, None, st), input, pos, cc)
            == Call(Some(Ok(o.tok)), At(col + 2, if o.EmitUnread? then Some(c) else None, Normal), pos + 2)
  {
    ReadLoopStep(At(col, None, st), input, pos, cc, Feed(At(col, None, st), a, cc));
    ReadOne(col + 1, s, input, pos + 1, c, o, cc);
  }

  /** A read loop with nothing held whose first character goes pending reads on in the pending state. */
  lemma StayStep(col: nat, st: State, input: seq<char>, pos: nat, a: char, s: State, cc: CharClasses)
    requires pos < |input| && input[pos] == a && a != '\n' && Transition(st, a, cc) == Stay(s)
    ensures ReadLoop(At(col, None, st), input, pos, cc) == ReadLoop(At(col + 1, None, s), input, pos + 1, cc)
  {
    ReadLoopStep(At(col, None, st), input, pos, cc, Feed(At(col, None, st), a, cc));
  }

  /** A read loop with nothing held whose first two characters go pending and whose third ends a token. */
  lemma ReadTriple(col: nat, st: State, input: seq<char>, pos: nat, a: char, s1: State, b: char, s2: State,
                   c: char, o: Outcome, cc: CharClasses)
    requires pos + 2 < |input| && input[pos] == a && input[pos + 1] == b && input[pos + 2] == c
    requires a != '\n' && b != '\n' && c != '\n'
    requires Transition(st, a, cc) == Stay(s1) && Transition(s1, b, cc) == Stay(s2)
    requires Transition(s2, c, cc) == o && (o.Emit? || o.EmitUnread?)
    ensures ReadLoop(At(col, None, st), input, pos, cc)
            == Call(Some(Ok(o.tok)), At(col + 3, if o.EmitUnread? then Some(c) else None, Normal), pos + 3)
  {
    StayStep(col, st, input, pos, a, s1, cc);
    ReadPair(col + 1, s1, input, pos + 1, b, s2, c, o, cc);
  }

  /** A read loop with nothing held whose first three characters go pending and whose fourth ends a token. */
  lemma ReadQuad(col: nat, st: State, input: seq<char>, pos: nat, a: char, s1: State, b: char, s2: State,
                 c: char, s3: State, d: char, o: Outcome, cc: CharClasses)
    requires pos + 3 < |input| && input[pos] == a && input[pos + 1] == b && input[pos + 2] == c && input[pos + 3] == d
    requires a != '\n' && b != '\n' && c != '\n' && d != '\n'
    requires Transition(st, a, cc) == Stay(s1) && Transition(s1, b, cc) == Stay(s2) && Transition(s2, c, cc) == Stay(s3)
    requires Transition(s3, d, cc) == o && (o.Emit? || o.EmitUnread?)
    ensures ReadLoop(At(col, None, st), input, pos, cc)
            == Call(Some(Ok(o.tok)), At(col + 4, if o.EmitUnread? then Some(d) else None, Normal), pos + 4)
  {
    StayStep(col, st, input, pos, a, s1, cc);
    ReadTriple(col + 1, s1, input, pos + 1, b, s2, c, s3, d, o, cc);
  }

  /**
   * A read loop with nothing held, in state `st`, over the rest of the input
   * while it keeps the machine pending (reaching `s`): the call finalizes `s`
   * at the end of the input.
   */
  lemma ReadToEnd(col: nat, st: State, input: seq<char>, pos: nat, s: State, cc: CharClasses)
    requires pos <= |input| && '\n' !in input[pos..] && Drive(st, input[pos..], cc) == Going(s)
    ensures ReadLoop(At(col, None, st), input, pos, cc)
            == Call(Finalize(At(col + |input| - pos, None, s)).1,
                    At(col + |input| - pos, None, s).(eofHandled := true), |input|)
  {
    assert input[pos..pos + (|input| - pos)] == input[pos..];
    ReadLoopWhilePending(At(col, None, st), input, pos, |input| - pos, cc);
    AdvanceAllWithoutNewline(0, col, input[pos..]);
    ReadLoopAtEnd(At(col + |input| - pos, None, s), input, cc);
  }

  /** A read loop at the end of the input only finalizes. */
  lemma ReadLoopAtEnd(ls: LexerState, input: seq<char>, cc: CharClasses)
    ensures ReadLoop(ls, input, |input|, cc) == Call(Finalize(ls).1, ls.(eofHandled := true), |input|)
  {
  }

  /** A held character that makes a token from Normal by itself: the call reads nothing. */
  lemma HeldEmits(col: nat, h: char, input: seq<char>, pos: nat, t: Token, cc: CharClasses)
    requires pos <= |input| && h != '\n' && OnNormal(h, cc) == Emit(Normal, t)
    ensures NextTokenSpec(At(col, Some(h), Normal), input, pos, cc)
            == Call(Some(Ok(t)), At(col + 1, None, Normal), pos)
  {
  }

  /** A held character that starts a pending state `s` from Normal: the call reads on from there. */
  lemma HeldStays(col: nat, h: char, input: seq<char>, pos: nat, s: State, cc: CharClasses)
    requires pos <= |input| && h != '\n' && OnNormal(h, cc) == Stay(s)
    ensures NextTokenSpec(At(col, Some(h), Normal), input, pos, cc) == ReadLoop(At(col + 1, None, s), input, pos, cc)
  {
  }

  /** The input of `special_chars_test`. */
  const SpecialCharsText := "?x!+ // -| ]z]]"

  /** The input of `cdata_test`, in pieces around the start of the CDATA opener. */
  const CDataText := "<a>" + "<![CDATA" + "[" + "x y ?]]> </a>"

  /** The input of `doctype_test`, in pieces around the start of the DOCTYPE opener. */
  const DoctypeText := "<a>" + "<!DOCTYP" + "E" + " ab xx z> "

  /** From Normal, `<![CDATA` is pending in the last substate of the CDATA opener. */
  lemma CDataOpenerIsPending(cc: CharClasses)
    ensures Drive(Normal, "<![CDATA", cc) == Going(CDataStarted(CDATA))
  {
    CDataPrefixStaysPending(6, cc);
    PendingAfterBang(CDataKeyword[..6], cc);
    assert "<!" + CDataKeyword[..6] == "<![CDATA";
  }

  /** From Normal, `<!DOCTYP` is pending in the last substate of the DOCTYPE opener. */
  lemma DoctypeOpenerIsPending(cc: CharClasses)
    ensures Drive(Normal, "<!DOCTYP", cc) == Going(DoctypeStarted(DOCTYP))
  {
    DoctypePrefixStaysPending(6, cc);
    PendingAfterBang(DoctypeKeyword[..6], cc);
    assert "<!" + DoctypeKeyword[..6] == "<!DOCTYP";
  }

  /**
   * From Normal, the opener `w` goes pending in `s` and on a line of its
   * own, and the next character `c` completes the token `t`.
   */
  ghost predicate Completes(w: seq<char>, c: char, s: State, t: Token, cc: CharClasses)
  {
    '\n' !in w && c != '\n' && Drive(Normal, w, cc) == Going(s) && Transition(s, c, cc) == Emit(Normal, t)
  }

  /** In the last substate of the CDATA opener, `[` emits CDataStart. */
  lemma CDataOpenerEnds(cc: CharClasses)
    ensures Transition(CDataStarted(CDATA), '[', cc) == Emit(Normal, CDataStart)
  {
  }

  /** In the last substate of the DOCTYPE opener, `E` emits DoctypeStart. */
  lemma DoctypeOpenerEnds(cc: CharClasses)
    ensures Transition(DoctypeStarted(DOCTYP), 'E', cc) == Emit(Normal, DoctypeStart)
  {
  }

  /** `[` completes `<![CDATA` into CDataStart. */
  lemma CDataOpenerCompletes(cc: CharClasses)
    ensures Completes("<![CDATA", '[', CDataStarted(CDATA), CDataStart, cc)
  {
    CDataOpenerIsPending(cc);
    CDataOpenerEnds(cc);
  }

  /** `E` completes `<!DOCTYP` into DoctypeStart. */
  lemma DoctypeOpenerCompletes(cc: CharClasses)
    ensures Completes("<!DOCTYP", 'E', DoctypeStarted(DOCTYP), DoctypeStart, cc)
  {
    DoctypeOpenerIsPending(cc);
    DoctypeOpenerEnds(cc);
  }

  /** A call with nothing held, in Normal, that reads an opener `w` completed by `c`. */
  lemma OpenerRead(col: nat, pre: seq<char>, w: seq<char>, c: char, post: seq<char>, s: State, t: Token,
                   cc: CharClasses)
    requires Completes(w, c, s, t, cc)
    ensures NextTokenSpec(At(col, None, Normal), pre + w + [c] + post, |pre|, cc)
            == Call(Some(Ok(t)), At(col + |w| + 1, None, Normal), |pre| + |w| + 1)
  {
    ReadWord(col, Normal, pre, w, c, post, s, Emit(Normal, t), cc);
  }

  /** A call reading a CDATA opener returns CDataStart, wherever the opener stands in the input. */
  lemma CDataOpenerRead(col: nat, pre: seq<char>, post: seq<char>, cc: CharClasses)
    ensures NextTokenSpec(At(col, None, Normal), pre + "<![CDATA" + "[" + post, |pre|, cc)
            == Call(Some(Ok(CDataStart)), At(col + 9, None, Normal), |pre| + 9)
  {
    CDataOpenerCompletes(cc);
    OpenerRead(col, pre, "<![CDATA", '[', post, CDataStarted(CDATA), CDataStart, cc);
  }

  /** A call reading a DOCTYPE opener returns DoctypeStart, wherever the opener stands in the input. */
  lemma DoctypeOpenerRead(col: nat, pre: seq<char>, post: seq<char>, cc: CharClasses)
    ensures NextTokenSpec(At(col, None, Normal), pre + "<!DOCTYP" + "E" + post, |pre|, cc)
            == Call(Some(Ok(DoctypeStart)), At(col + 9, None, Normal), |pre| + 9)
  {
    DoctypeOpenerCompletes(cc);
    OpenerRead(col, pre, "<!DOCTYP", 'E', post, DoctypeStarted(DOCTYP), DoctypeStart, cc);
  }

  /** One `next_token` call on `input`, as a step function: fields and cursor to the call. */
  function Step(input: seq<char>, cc: CharClasses): (LexerState, nat) -> Call
  {
    (ls: LexerState, pos: nat) => if pos <= |input| then NextTokenSpec(ls, input, pos, cc) else Call(None, ls, pos)
  }

  /**
   * Successive steps `next` from the fields `ls` at cursor `pos` return the
   * results `rs`, and step `k` leaves the fields and the cursor at `ends[k]`.
   */
  ghost predicate Replays(next: (LexerState, nat) -> Call, ls: LexerState, pos: nat, rs: seq<Option<LexResult>>,
                          ends: seq<(LexerState, nat)>)
    decreases |rs|
  {
    |ends| == |rs| &&
    (rs != [] ==>
       next(ls, pos) == Call(rs[0], ends[0].0, ends[0].1) && Replays(next, ends[0].0, ends[0].1, rs[1..], ends[1..]))
  }

  /** One more step in front of a replayed list. */
  lemma ReplaysCons(next: (LexerState, nat) -> Call, ls: LexerState, pos: nat, r: Option<LexResult>,
                    e: (LexerState, nat), rs: seq<Option<LexResult>>, ends: seq<(LexerState, nat)>)
    requires next(ls, pos) == Call(r, e.0, e.1) && Replays(next, e.0, e.1, rs, ends)
    ensures Replays(next, ls, pos, [r] + rs, [e] + ends)
  {
    assert ([r] + rs)[1..] == rs;
    assert ([e] + ends)[1..] == ends;
  }

  /** Two replayed lists in a row, the second starting where the first ends, replay together. */
  lemma {:induction false} ReplaysAppend(next: (LexerState, nat) -> Call, ls: LexerState, pos: nat,
                                         rs1: seq<Option<LexResult>>, ends1: seq<(LexerState, nat)>,
                                         rs2: seq<Option<LexResult>>, ends2: seq<(LexerState, nat)>)
    requires Replays(next, ls, pos, rs1, ends1) && rs1 != []
    requires Replays(next, ends1[|rs1| - 1].0, ends1[|rs1| - 1].1, rs2, ends2)
    ensures Replays(next, ls, pos, rs1 + rs2, ends1 + ends2)
    decreases |rs1|
  {
    assert (rs1 + rs2)[1..] == rs1[1..] + rs2;
    assert (ends1 + ends2)[1..] == ends1[1..] + ends2;
    if |rs1| > 1 {
      ReplaysAppend(next, ends1[0].0, ends1[0].1, rs1[1..], ends1[1..], rs2, ends2);
    }
  }

  /** A non-empty replayed list from `start` whose last step leaves the fields and the cursor at `last`. */
  ghost predicate ReplaysTo(next: (LexerState, nat) -> Call, start: (LexerState, nat), rs: seq<Option<LexResult>>,
                            ends: seq<(LexerState, nat)>, last: (LexerState, nat))
  {
    Replays(next, start.0, start.1, rs, ends) && rs != [] && ends[|rs| - 1] == last
  }

  /** Names where a replayed list ends. */
  lemma ReplaysToLast(next: (LexerState, nat) -> Call, start: (LexerState, nat), rs: seq<Option<LexResult>>,
                      ends: seq<(LexerState, nat)>, last: (LexerState, nat))
    requires Replays(next, start.0, start.1, rs, ends) && rs != [] && ends[|rs| - 1] == last
    ensures ReplaysTo(next, start, rs, ends, last)
  {
  }

  /** Two replayed lists in a row, the second starting where the first ends, replay together to the second's end. */
  lemma ReplaysToAppend(next: (LexerState, nat) -> Call, start: (LexerState, nat), rs1: seq<Option<LexResult>>,
                        ends1: seq<(LexerState, nat)>, mid: (LexerState, nat), rs2: seq<Option<LexResult>>,
                        ends2: seq<(LexerState, nat)>, last: (LexerState, nat))
    requires ReplaysTo(next, start, rs1, ends1, mid) && ReplaysTo(next, mid, rs2, ends2, last)
    ensures ReplaysTo(next, start, rs1 + rs2, ends1 + ends2, last)
  {
    ReplaysAppend(next, start.0, start.1, rs1, ends1, rs2, ends2);
  }

  /** A list of results replayed by `next_token` steps is what Run returns for that many calls. */
  lemma {:induction false} ReplaysRun(ls: LexerState, input: seq<char>, pos: nat, rs: seq<Option<LexResult>>,
                                      ends: seq<(LexerState, nat)>, cc: CharClasses)
    requires pos <= |input| && Replays(Step(input, cc), ls, pos, rs, ends)
    ensures Run(ls, input, pos, |rs|, cc).0 == rs
    decreases |rs|
  {
    if rs != [] {
      var call := NextTokenSpec(ls, input, pos, cc);
      assert Step(input, cc)(ls, pos) == call;
      ReplaysRun(call.after, input, call.pos, rs[1..], ends[1..], cc);
      RunStep(ls, input, pos, |rs| - 1, cc, call);
      assert [call.result] + rs[1..] == rs;
    }
  }

  /** Call 1 of `special_chars_test` reads `?x` and returns `Character('?')`, holding `x` back. */
  lemma SpecialCharsCall1(cc: CharClasses)
    ensures NextTokenSpec(New(), SpecialCharsText, 0, cc) == Call(Some(Ok(Character('?'))), At(2, Some('x'), Normal), 2)
  {
    ReadPair(0, Normal, SpecialCharsText, 0, '?', ProcessingInstructionClosing, 'x', EmitUnread(Normal, Character('?')), cc);
  }

  /** Call 2 of `special_chars_test` takes back the held `x` and returns `Character('x')`. */
  lemma SpecialCharsCall2(cc: CharClasses)
    requires !cc.isWhitespace('x')
    ensures NextTokenSpec(At(2, Some('x'), Normal), SpecialCharsText, 2, cc) == Call(Some(Ok(Character('x'))), At(3, None, Normal), 2)
  {
    HeldEmits(2, 'x', SpecialCharsText, 2, Character('x'), cc);
  }

  /** Call 3 of `special_chars_test` reads `!` and returns `Character('!')`. */
  lemma SpecialCharsCall3(cc: CharClasses)
    requires !cc.isWhitespace('!')
    ensures NextTokenSpec(At(3, None, Normal), SpecialCharsText, 2, cc) == Call(Some(Ok(Character('!'))), At(4, None, Normal), 3)
  {
    ReadOne(3, Normal, SpecialCharsText, 2, '!', Emit(Normal, Character('!')), cc);
  }

  /** Call 4 of `special_chars_test` reads `+` and returns `Character('+')`. */
  lemma SpecialCharsCall4(cc: CharClasses)
    requires !cc.isWhitespace('+')
    ensures NextTokenSpec(At(4, None, Normal), SpecialCharsText, 3, cc) == Call(Some(Ok(Character('+'))), At(5, None, Normal), 4)
  {
    ReadOne(4, Normal, SpecialCharsText, 3, '+', Emit(Normal, Character('+')), cc);
  }

  /** Call 5 of `special_chars_test` reads ` ` and returns `Whitespace(' ')`. */
  lemma SpecialCharsCall5(cc: CharClasses)
    requires cc.isWhitespace(' ')
    ensures NextTokenSpec(At(5, None, Normal), SpecialCharsText, 4, cc) == Call(Some(Ok(Whitespace(' '))), At(6, None, Normal), 5)
  {
    ReadOne(5, Normal, SpecialCharsText, 4, ' ', Emit(Normal, Whitespace(' ')), cc);
  }

  /** Call 6 of `special_chars_test` reads `//` and returns `Character('/')`, holding `/` back. */
  lemma SpecialCharsCall6(cc: CharClasses)
    ensures NextTokenSpec(At(6, None, Normal), SpecialCharsText, 5, cc) == Call(Some(Ok(Character('/'))), At(8, Some('/'), Normal), 7)
  {
    ReadPair(6, Normal, SpecialCharsText, 5, '/', EmptyTagClosing, '/', EmitUnread(Normal, Character('/')), cc);
  }

  /** Call 7 of `special_chars_test` takes back the held `/`, reads ` ` and returns `Character('/')`, holding ` ` back. */
  lemma SpecialCharsCall7(cc: CharClasses)
    requires cc.isWhitespace(' ')
    ensures NextTokenSpec(At(8, Some('/'), Normal), SpecialCharsText, 7, cc) == Call(Some(Ok(Character('/'))), At(10, Some(' '), Normal), 8)
  {
    HeldStays(8, '/', SpecialCharsText, 7, EmptyTagClosing, cc);
    ReadOne(9, EmptyTagClosing, SpecialCharsText, 7, ' ', EmitUnread(Normal, Character('/')), cc);
  }

  /** Call 8 of `special_chars_test` takes back the held ` ` and returns `Whitespace(' ')`. */
  lemma SpecialCharsCall8(cc: CharClasses)
    requires cc.isWhitespace(' ')
    ensures NextTokenSpec(At(10, Some(' '), Normal), SpecialCharsText, 8, cc) == Call(Some(Ok(Whitespace(' '))), At(11, None, Normal), 8)
  {
    HeldEmits(10, ' ', SpecialCharsText, 8, Whitespace(' '), cc);
  }

  /** Call 9 of `special_chars_test` reads `-|` and returns `Character('-')`, holding `|` back. */
  lemma SpecialCharsCall9(cc: CharClasses)
    requires !cc.isWhitespace('|')
    ensures NextTokenSpec(At(11, None, Normal), SpecialCharsText, 8, cc) == Call(Some(Ok(Character('-'))), At(13, Some('|'), Normal), 10)
  {
    ReadPair(11, Normal, SpecialCharsText, 8, '-', CommentClosing(First), '|', EmitUnread(Normal, Character('-')), cc);
  }

  /** Call 10 of `special_chars_test` takes back the held `|` and returns `Character('|')`. */
  lemma SpecialCharsCall10(cc: CharClasses)
    requires !cc.isWhitespace('|')
    ensures NextTokenSpec(At(13, Some('|'), Normal), SpecialCharsText, 10, cc) == Call(Some(Ok(Character('|'))), At(14, None, Normal), 10)
  {
    HeldEmits(13, '|', SpecialCharsText, 10, Character('|'), cc);
  }

  /** Call 11 of `special_chars_test` reads ` ` and returns `Whitespace(' ')`. */
  lemma SpecialCharsCall11(cc: CharClasses)
    requires cc.isWhitespace(' ')
    ensures NextTokenSpec(At(14, None, Normal), SpecialCharsText, 10, cc) == Call(Some(Ok(Whitespace(' '))), At(15, None, Normal), 11)
  {
    ReadOne(14, Normal, SpecialCharsText, 10, ' ', Emit(Normal, Whitespace(' ')), cc);
  }

  /** Call 12 of `special_chars_test` reads `]z` and returns `Character(']')`, holding `z` back. */
  lemma SpecialCharsCall12(cc: CharClasses)
    requires !cc.isWhitespace('z')
    ensures NextTokenSpec(At(15, None, Normal), SpecialCharsText, 11, cc) == Call(Some(Ok(Character(']'))), At(17, Some('z'), Normal), 13)
  {
    ReadPair(15, Normal, SpecialCharsText, 11, ']', CDataClosing(First), 'z', EmitUnread(Normal, Character(']')), cc);
  }

  /** Call 13 of `special_chars_test` takes back the held `z` and returns `Character('z')`. */
  lemma SpecialCharsCall13(cc: CharClasses)
    requires !cc.isWhitespace('z')
    ensures NextTokenSpec(At(17, Some('z'), Normal), SpecialCharsText, 13, cc) == Call(Some(Ok(Character('z'))), At(18, None, Normal), 13)
  {
    HeldEmits(17, 'z', SpecialCharsText, 13, Character('z'), cc);
  }

  /** Call 14 of `special_chars_test` reads `]]` and returns `Chunk("]]")`. */
  lemma SpecialCharsCall14(cc: CharClasses)
    ensures NextTokenSpec(At(18, None, Normal), SpecialCharsText, 13, cc) == Call(Some(Ok(Chunk("]]"))), At(20, None, CDataClosing(Second)).(eofHandled := true), 15)
  {
    assert SpecialCharsText[13..] == "]]" && "]]"[1..] == "]";
    ReadToEnd(18, Normal, SpecialCharsText, 13, CDataClosing(Second), cc);
  }

  /** Call 15 of `special_chars_test` reads nothing and returns nothing, the stream having ended. */
  lemma SpecialCharsCall15(cc: CharClasses)
    ensures NextTokenSpec(At(20, None, CDataClosing(Second)).(eofHandled := true), SpecialCharsText, 15, cc) == Call(None, At(20, None, CDataClosing(Second)).(eofHandled := true), 15)
  {
  }

  /** Calls 11 to 15 of `special_chars_test`, to the end of the stream. */
  lemma SpecialCharsReplays3(cc: CharClasses)
    requires cc.isWhitespace(' ') && !cc.isWhitespace('z')
    ensures Replays(Step(SpecialCharsText, cc), At(14, None, Normal), 10,
                    [Some(Ok(Whitespace(' '))), Some(Ok(Character(']'))), Some(Ok(Character('z'))), Some(Ok(Chunk("]]"))),
                     None],
                    [(At(15, None, Normal), 11), (At(17, Some('z'), Normal), 13), (At(18, None, Normal), 13),
                     (At(20, None, CDataClosing(Second)).(eofHandled := true), 15), (At(20, None, CDataClosing(Second)).(eofHandled := true), 15)])
  {
    SpecialCharsCall11(cc);
    SpecialCharsCall12(cc);
    SpecialCharsCall13(cc);
    SpecialCharsCall14(cc);
    SpecialCharsCall15(cc);
    ReplaysCons(Step(SpecialCharsText, cc), At(20, None, CDataClosing(Second)).(eofHandled := true), 15, None, (At(20, None, CDataClosing(Second)).(eofHandled := true), 15),
      [],
      []);
    ReplaysCons(Step(SpecialCharsText, cc), At(18, None, Normal), 13, Some(Ok(Chunk("]]"))), (At(20, None, CDataClosing(Second)).(eofHandled := true), 15),
      [None],
      [(At(20, None, CDataClosing(Second)).(eofHandled := true), 15)]);
    ReplaysCons(Step(SpecialCharsText, cc), At(17, Some('z'), Normal), 13, Some(Ok(Character('z'))), (At(18, None, Normal), 13),
      [Some(Ok(Chunk("]]"))), None],
      [(At(20, None, CDataClosing(Second)).(eofHandled := true), 15), (At(20, None, CDataClosing(Second)).(eofHandled := true), 15)]);
    ReplaysCons(Step(SpecialCharsText, cc), At(15, None, Normal), 11, Some(Ok(Character(']'))), (At(17, Some('z'), Normal), 13),
      [Some(Ok(Character('z'))), Some(Ok(Chunk("]]"))), None],
      [(At(18, None, Normal), 13), (At(20, None, CDataClosing(Second)).(eofHandled := true), 15),
       (At(20, None, CDataClosing(Second)).(eofHandled := true), 15)]);
    ReplaysCons(Step(SpecialCharsText, cc), At(14, None, Normal), 10, Some(Ok(Whitespace(' '))), (At(15, None, Normal), 11),
      [Some(Ok(Character(']'))), Some(Ok(Character('z'))), Some(Ok(Chunk("]]"))), None],
      [(At(17, Some('z'), Normal), 13), (At(18, None, Normal), 13), (At(20, None, CDataClosing(Second)).(eofHandled := true), 15),
       (At(20, None, CDataClosing(Second)).(eofHandled := true), 15)]);
  }

  /** Calls 6 to 15 of `special_chars_test`, to the end of the stream: five more in front of the calls from 11 on. */
  lemma SpecialCharsReplays2(cc: CharClasses)
    requires cc.isWhitespace(' ') && !cc.isWhitespace('|') && !cc.isWhitespace('z')
    ensures Replays(Step(SpecialCharsText, cc), At(6, None, Normal), 5,
                    [Some(Ok(Character('/'))), Some(Ok(Character('/'))), Some(Ok(Whitespace(' '))), Some(Ok(Character('-'))),
                     Some(Ok(Character('|'))), Some(Ok(Whitespace(' '))), Some(Ok(Character(']'))), Some(Ok(Character('z'))),
                     Some(Ok(Chunk("]]"))), None],
                    [(At(8, Some('/'), Normal), 7), (At(10, Some(' '), Normal), 8), (At(11, None, Normal), 8),
                     (At(13, Some('|'), Normal), 10), (At(14, None, Normal), 10), (At(15, None, Normal), 11),
                     (At(17, Some('z'), Normal), 13), (At(18, None, Normal), 13), (At(20, None, CDataClosing(Second)).(eofHandled := true), 15),
                     (At(20, None, CDataClosing(Second)).(eofHandled := true), 15)])
  {
    SpecialCharsReplays3(cc);
    SpecialCharsCall6(cc);
    SpecialCharsCall7(cc);
    SpecialCharsCall8(cc);
    SpecialCharsCall9(cc);
    SpecialCharsCall10(cc);
    ReplaysCons(Step(SpecialCharsText, cc), At(13, Some('|'), Normal), 10, Some(Ok(Character('|'))), (At(14, None, Normal), 10),
      [Some(Ok(Whitespace(' '))), Some(Ok(Character(']'))), Some(Ok(Character('z'))), Some(Ok(Chunk("]]"))),
       None],
      [(At(15, None, Normal), 11), (At(17, Some('z'), Normal), 13), (At(18, None, Normal), 13),
       (At(20, None, CDataClosing(Second)).(eofHandled := true), 15), (At(20, None, CDataClosing(Second)).(eofHandled := true), 15)]);
    ReplaysCons(Step(SpecialCharsText, cc), At(11, None, Normal), 8, Some(Ok(Character('-'))), (At(13, Some('|'), Normal), 10),
      [Some(Ok(Character('|'))), Some(Ok(Whitespace(' '))), Some(Ok(Character(']'))), Some(Ok(Character('z'))),
       Some(Ok(Chunk("]]"))), None],
      [(At(14, None, Normal), 10), (At(15, None, Normal), 11), (At(17, Some('z'), Normal), 13),
       (At(18, None, Normal), 13), (At(20, None, CDataClosing(Second)).(eofHandled := true), 15),
       (At(20, None, CDataClosing(Second)).(eofHandled := true), 15)]);
    ReplaysCons(Step(SpecialCharsText, cc), At(10, Some(' '), Normal), 8, Some(Ok(Whitespace(' '))), (At(11, None, Normal), 8),
      [Some(Ok(Character('-'))), Some(Ok(Character('|'))), Some(Ok(Whitespace(' '))), Some(Ok(Character(']'))),
       Some(Ok(Character('z'))), Some(Ok(Chunk("]]"))), None],
      [(At(13, Some('|'), Normal), 10), (At(14, None, Normal), 10), (At(15, None, Normal), 11),
       (At(17, Some('z'), Normal), 13), (At(18, None, Normal), 13), (At(20, None, CDataClosing(Second)).(eofHandled := true), 15),
       (At(20, None, CDataClosing(Second)).(eofHandled := true), 15)]);
    ReplaysCons(Step(SpecialCharsText, cc), At(8, Some('/'), Normal), 7, Some(Ok(Character('/'))), (At(10, Some(' '), Normal), 8),
      [Some(Ok(Whitespace(' '))), Some(Ok(Character('-'))), Some(Ok(Character('|'))), Some(Ok(Whitespace(' '))),
       Some(Ok(Character(']'))), Some(Ok(Character('z'))), Some(Ok(Chunk("]]"))), None],
      [(At(11, None, Normal), 8), (At(13, Some('|'), Normal), 10), (At(14, None, Normal), 10),
       (At(15, None, Normal), 11), (At(17, Some('z'), Normal), 13), (At(18, None, Normal), 13),
       (At(20, None, CDataClosing(Second)).(eofHandled := true), 15), (At(20, None, CDataClosing(Second)).(eofHandled := true), 15)]);
    ReplaysCons(Step(SpecialCharsText, cc), At(6, None, Normal), 5, Some(Ok(Character('/'))), (At(8, Some('/'), Normal), 7),
      [Some(Ok(Character('/'))), Some(Ok(Whitespace(' '))), Some(Ok(Character('-'))), Some(Ok(Character('|'))),
       Some(Ok(Whitespace(' '))), Some(Ok(Character(']'))), Some(Ok(Character('z'))), Some(Ok(Chunk("]]"))),
       None],
      [(At(10, Some(' '), Normal), 8), (At(11, None, Normal), 8), (At(13, Some('|'), Normal), 10),
       (At(14, None, Normal), 10), (At(15, None, Normal), 11), (At(17, Some('z'), Normal), 13),
       (At(18, None, Normal), 13), (At(20, None, CDataClosing(Second)).(eofHandled := true), 15),
       (At(20, None, CDataClosing(Second)).(eofHandled := true), 15)]);
  }

  /** Calls 1 to 15 of `special_chars_test`, to the end of the stream: five more in front of the calls from 6 on. */
  lemma SpecialCharsReplays1(cc: CharClasses)
    requires cc.isWhitespace(' ') && !cc.isWhitespace('x') && !cc.isWhitespace('!') && !cc.isWhitespace('+') && !cc.isWhitespace('|') && !cc.isWhitespace('z')
    ensures Replays(Step(SpecialCharsText, cc), New(), 0,
                    [Some(Ok(Character('?'))), Some(Ok(Character('x'))), Some(Ok(Character('!'))), Some(Ok(Character('+'))),
                     Some(Ok(Whitespace(' '))), Some(Ok(Character('/'))), Some(Ok(Character('/'))), Some(Ok(Whitespace(' '))),
                     Some(Ok(Character('-'))), Some(Ok(Character('|'))), Some(Ok(Whitespace(' '))), Some(Ok(Character(']'))),
                     Some(Ok(Character('z'))), Some(Ok(Chunk("]]"))), None],
                    [(At(2, Some('x'), Normal), 2), (At(3, None, Normal), 2), (At(4, None, Normal), 3),
                     (At(5, None, Normal), 4), (At(6, None, Normal), 5), (At(8, Some('/'), Normal), 7),
                     (At(10, Some(' '), Normal), 8), (At(11, None, Normal), 8), (At(13, Some('|'), Normal), 10),
                     (At(14, None, Normal), 10), (At(15, None, Normal), 11), (At(17, Some('z'), Normal), 13),
                     (At(18, None, Normal), 13), (At(20, None, CDataClosing(Second)).(eofHandled := true), 15),
                     (At(20, None, CDataClosing(Second)).(eofHandled := true), 15)])
  {
    SpecialCharsReplays2(cc);
    SpecialCharsCall1(cc);
    SpecialCharsCall2(cc);
    SpecialCharsCall3(cc);
    SpecialCharsCall4(cc);
    SpecialCharsCall5(cc);
    ReplaysCons(Step(SpecialCharsText, cc), At(5, None, Normal), 4, Some(Ok(Whitespace(' '))), (At(6, None, Normal), 5),
      [Some(Ok(Character('/'))), Some(Ok(Character('/'))), Some(Ok(Whitespace(' '))), Some(Ok(Character('-'))),
       Some(Ok(Character('|'))), Some(Ok(Whitespace(' '))), Some(Ok(Character(']'))), Some(Ok(Character('z'))),
       Some(Ok(Chunk("]]"))), None],
      [(At(8, Some('/'), Normal), 7), (At(10, Some(' '), Normal), 8), (At(11, None, Normal), 8),
       (At(13, Some('|'), Normal), 10), (At(14, None, Normal), 10), (At(15, None, Normal), 11),
       (At(17, Some('z'), Normal), 13), (At(18, None, Normal), 13), (At(20, None, CDataClosing(Second)).(eofHandled := true), 15),
       (At(20, None, CDataClosing(Second)).(eofHandled := true), 15)]);
    ReplaysCons(Step(SpecialCharsText, cc), At(4, None, Normal), 3, Some(Ok(Character('+'))), (At(5, None, Normal), 4),
      [Some(Ok(Whitespace(' '))), Some(Ok(Character('/'))), Some(Ok(Character('/'))), Some(Ok(Whitespace(' '))),
       Some(Ok(Character('-'))), Some(Ok(Character('|'))), Some(Ok(Whitespace(' '))), Some(Ok(Character(']'))),
       Some(Ok(Character('z'))), Some(Ok(Chunk("]]"))), None],
      [(At(6, None, Normal), 5), (At(8, Some('/'), Normal), 7), (At(10, Some(' '), Normal), 8),
       (At(11, None, Normal), 8), (At(13, Some('|'), Normal), 10), (At(14, None, Normal), 10),
       (At(15, None, Normal), 11), (At(17, Some('z'), Normal), 13), (At(18, None, Normal), 13),
       (At(20, None, CDataClosing(Second)).(eofHandled := true), 15), (At(20, None, CDataClosing(Second)).(eofHandled := true), 15)]);
    ReplaysCons(Step(SpecialCharsText, cc), At(3, None, Normal), 2, Some(Ok(Character('!'))), (At(4, None, Normal), 3),
      [Some(Ok(Character('+'))), Some(Ok(Whitespace(' '))), Some(Ok(Character('/'))), Some(Ok(Character('/'))),
       Some(Ok(Whitespace(' '))), Some(Ok(Character('-'))), Some(Ok(Character('|'))), Some(Ok(Whitespace(' '))),
       Some(Ok(Character(']'))), Some(Ok(Character('z'))), Some(Ok(Chunk("]]"))), None],
      [(At(5, None, Normal), 4), (At(6, None, Normal), 5), (At(8, Some('/'), Normal), 7),
       (At(10, Some(' '), Normal), 8), (At(11, None, Normal), 8), (At(13, Some('|'), Normal), 10),
       (At(14, None, Normal), 10), (At(15, None, Normal), 11), (At(17, Some('z'), Normal), 13),
       (At(18, None, Normal), 13), (At(20, None, CDataClosing(Second)).(eofHandled := true), 15),
       (At(20, None, CDataClosing(Second)).(eofHandled := true), 15)]);
    ReplaysCons(Step(SpecialCharsText, cc), At(2, Some('x'), Normal), 2, Some(Ok(Character('x'))), (At(3, None, Normal), 2),
      [Some(Ok(Character('!'))), Some(Ok(Character('+'))), Some(Ok(Whitespace(' '))), Some(Ok(Character('/'))),
       Some(Ok(Character('/'))), Some(Ok(Whitespace(' '))), Some(Ok(Character('-'))), Some(Ok(Character('|'))),
       Some(Ok(Whitespace(' '))), Some(Ok(Character(']'))), Some(Ok(Character('z'))), Some(Ok(Chunk("]]"))),
       None],
      [(At(4, None, Normal), 3), (At(5, None, Normal), 4), (At(6, None, Normal), 5), (At(8, Some('/'), Normal), 7),
       (At(10, Some(' '), Normal), 8), (At(11, None, Normal), 8), (At(13, Some('|'), Normal), 10),
       (At(14, None, Normal), 10), (At(15, None, Normal), 11), (At(17, Some('z'), Normal), 13),
       (At(18, None, Normal), 13), (At(20, None, CDataClosing(Second)).(eofHandled := true), 15),
       (At(20, None, CDataClosing(Second)).(eofHandled := true), 15)]);
    ReplaysCons(Step(SpecialCharsText, cc), New(), 0, Some(Ok(Character('?'))), (At(2, Some('x'), Normal), 2),
      [Some(Ok(Character('x'))), Some(Ok(Character('!'))), Some(Ok(Character('+'))), Some(Ok(Whitespace(' '))),
       Some(Ok(Character('/'))), Some(Ok(Character('/'))), Some(Ok(Whitespace(' '))), Some(Ok(Character('-'))),
       Some(Ok(Character('|'))), Some(Ok(Whitespace(' '))), Some(Ok(Character(']'))), Some(Ok(Character('z'))),
       Some(Ok(Chunk("]]"))), None],
      [(At(3, None, Normal), 2), (At(4, None, Normal), 3), (At(5, None, Normal), 4), (At(6, None, Normal), 5),
       (At(8, Some('/'), Normal), 7), (At(10, Some(' '), Normal), 8), (At(11, None, Normal), 8),
       (At(13, Some('|'), Normal), 10), (At(14, None, Normal), 10), (At(15, None, Normal), 11),
       (At(17, Some('z'), Normal), 13), (At(18, None, Normal), 13), (At(20, None, CDataClosing(Second)).(eofHandled := true), 15),
       (At(20, None, CDataClosing(Second)).(eofHandled := true), 15)]);
  }

  /** Call 1 of `cdata_test` reads `<a` and returns `OpeningTagStart`, holding `a` back. */
  lemma CDataCall1(cc: CharClasses)
    requires !cc.isWhitespace('a') && cc.isNameChar('a')
    ensures NextTokenSpec(New(), CDataText, 0, cc) == Call(Some(Ok(OpeningTagStart)), At(2, Some('a'), Normal), 2)
  {
    ReadPair(0, Normal, CDataText, 0, '<', TagOpened, 'a', EmitUnread(Normal, OpeningTagStart), cc);
  }

  /** Call 2 of `cdata_test` takes back the held `a` and returns `Character('a')`. */
  lemma CDataCall2(cc: CharClasses)
    requires !cc.isWhitespace('a')
    ensures NextTokenSpec(At(2, Some('a'), Normal), CDataText, 2, cc) == Call(Some(Ok(Character('a'))), At(3, None, Normal), 2)
  {
    HeldEmits(2, 'a', CDataText, 2, Character('a'), cc);
  }

  /** Call 3 of `cdata_test` reads `>` and returns `TagEnd`. */
  lemma CDataCall3(cc: CharClasses)
    ensures NextTokenSpec(At(3, None, Normal), CDataText, 2, cc) == Call(Some(Ok(TagEnd)), At(4, None, Normal), 3)
  {
    ReadOne(3, Normal, CDataText, 2, '>', Emit(Normal, TagEnd), cc);
  }

  /** Call 4 of `cdata_test` reads `<![CDATA[` and returns `CDataStart`. */
  lemma CDataCall4(cc: CharClasses)
    ensures NextTokenSpec(At(4, None, Normal), CDataText, 3, cc) == Call(Some(Ok(CDataStart)), At(13, None, Normal), 12)
  {
    CDataOpenerRead(4, "<a>", "x y ?]]> </a>", cc);
  }

  /** Call 5 of `cdata_test` reads `x` and returns `Character('x')`. */
  lemma CDataCall5(cc: CharClasses)
    requires !cc.isWhitespace('x')
    ensures NextTokenSpec(At(13, None, Normal), CDataText, 12, cc) == Call(Some(Ok(Character('x'))), At(14, None, Normal), 13)
  {
    ReadOne(13, Normal, CDataText, 12, 'x', Emit(Normal, Character('x')), cc);
  }

  /** Call 6 of `cdata_test` reads ` ` and returns `Whitespace(' ')`. */
  lemma CDataCall6(cc: CharClasses)
    requires cc.isWhitespace(' ')
    ensures NextTokenSpec(At(14, None, Normal), CDataText, 13, cc) == Call(Some(Ok(Whitespace(' '))), At(15, None, Normal), 14)
  {
    ReadOne(14, Normal, CDataText, 13, ' ', Emit(Normal, Whitespace(' ')), cc);
  }

  /** Call 7 of `cdata_test` reads `y` and returns `Character('y')`. */
  lemma CDataCall7(cc: CharClasses)
    requires !cc.isWhitespace('y')
    ensures NextTokenSpec(At(15, None, Normal), CDataText, 14, cc) == Call(Some(Ok(Character('y'))), At(16, None, Normal), 15)
  {
    ReadOne(15, Normal, CDataText, 14, 'y', Emit(Normal, Character('y')), cc);
  }

  /** Call 8 of `cdata_test` reads ` ` and returns `Whitespace(' ')`. */
  lemma CDataCall8(cc: CharClasses)
    requires cc.isWhitespace(' ')
    ensures NextTokenSpec(At(16, None, Normal), CDataText, 15, cc) == Call(Some(Ok(Whitespace(' '))), At(17, None, Normal), 16)
  {
    ReadOne(16, Normal, CDataText, 15, ' ', Emit(Normal, Whitespace(' ')), cc);
  }

  /** Call 9 of `cdata_test` reads `?]` and returns `Character('?')`, holding `]` back. */
  lemma CDataCall9(cc: CharClasses)
    ensures NextTokenSpec(At(17, None, Normal), CDataText, 16, cc) == Call(Some(Ok(Character('?'))), At(19, Some(']'), Normal), 18)
  {
    ReadPair(17, Normal, CDataText, 16, '?', ProcessingInstructionClosing, ']', EmitUnread(Normal, Character('?')), cc);
  }

  /** Call 10 of `cdata_test` takes back the held `]`, reads `]>` and returns `CDataEnd`. */
  lemma CDataCall10(cc: CharClasses)
    ensures NextTokenSpec(At(19, Some(']'), Normal), CDataText, 18, cc) == Call(Some(Ok(CDataEnd)), At(22, None, Normal), 20)
  {
    HeldStays(19, ']', CDataText, 18, CDataClosing(First), cc);
    ReadPair(20, CDataClosing(First), CDataText, 18, ']', CDataClosing(Second), '>', Emit(Normal, CDataEnd), cc);
  }

  /** Call 11 of `cdata_test` reads ` ` and returns `Whitespace(' ')`. */
  lemma CDataCall11(cc: CharClasses)
    requires cc.isWhitespace(' ')
    ensures NextTokenSpec(At(22, None, Normal), CDataText, 20, cc) == Call(Some(Ok(Whitespace(' '))), At(23, None, Normal), 21)
  {
    ReadOne(22, Normal, CDataText, 20, ' ', Emit(Normal, Whitespace(' ')), cc);
  }

  /** Call 12 of `cdata_test` reads `</` and returns `ClosingTagStart`. */
  lemma CDataCall12(cc: CharClasses)
    ensures NextTokenSpec(At(23, None, Normal), CDataText, 21, cc) == Call(Some(Ok(ClosingTagStart)), At(25, None, Normal), 23)
  {
    ReadPair(23, Normal, CDataText, 21, '<', TagOpened, '/', Emit(Normal, ClosingTagStart), cc);
  }

  /** Call 13 of `cdata_test` reads `a` and returns `Character('a')`. */
  lemma CDataCall13(cc: CharClasses)
    requires !cc.isWhitespace('a')
    ensures NextTokenSpec(At(25, None, Normal), CDataText, 23, cc) == Call(Some(Ok(Character('a'))), At(26, None, Normal), 24)
  {
    ReadOne(25, Normal, CDataText, 23, 'a', Emit(Normal, Character('a')), cc);
  }

  /** Call 14 of `cdata_test` reads `>` and returns `TagEnd`. */
  lemma CDataCall14(cc: CharClasses)
    ensures NextTokenSpec(At(26, None, Normal), CDataText, 24, cc) == Call(Some(Ok(TagEnd)), At(27, None, Normal), 25)
  {
    ReadOne(26, Normal, CDataText, 24, '>', Emit(Normal, TagEnd), cc);
  }

  /** Call 15 of `cdata_test` reads nothing and returns nothing, the stream having ended. */
  lemma CDataCall15(cc: CharClasses)
    ensures NextTokenSpec(At(27, None, Normal), CDataText, 25, cc) == Call(None, At(27, None, Normal).(eofHandled := true), 25)
  {
    ReadToEnd(27, Normal, CDataText, 25, Normal, cc);
  }

  /** Calls 11 to 15 of `cdata_test`, to the end of the stream. */
  lemma CDataReplays3(cc: CharClasses)
    requires cc.isWhitespace(' ') && !cc.isWhitespace('a')
    ensures Replays(Step(CDataText, cc), At(22, None, Normal), 20,
                    [Some(Ok(Whitespace(' '))), Some(Ok(ClosingTagStart)), Some(Ok(Character('a'))), Some(Ok(TagEnd)),
                     None],
                    [(At(23, None, Normal), 21), (At(25, None, Normal), 23), (At(26, None, Normal), 24),
                     (At(27, None, Normal), 25), (At(27, None, Normal).(eofHandled := true), 25)])
  {
    CDataCall11(cc);
    CDataCall12(cc);
    CDataCall13(cc);
    CDataCall14(cc);
    CDataCall15(cc);
    ReplaysCons(Step(CDataText, cc), At(27, None, Normal), 25, None, (At(27, None, Normal).(eofHandled := true), 25),
      [],
      []);
    ReplaysCons(Step(CDataText, cc), At(26, None, Normal), 24, Some(Ok(TagEnd)), (At(27, None, Normal), 25),
      [None],
      [(At(27, None, Normal).(eofHandled := true), 25)]);
    ReplaysCons(Step(CDataText, cc), At(25, None, Normal), 23, Some(Ok(Character('a'))), (At(26, None, Normal), 24),
      [Some(Ok(TagEnd)), None],
      [(At(27, None, Normal), 25), (At(27, None, Normal).(eofHandled := true), 25)]);
    ReplaysCons(Step(CDataText, cc), At(23, None, Normal), 21, Some(Ok(ClosingTagStart)), (At(25, None, Normal), 23),
      [Some(Ok(Character('a'))), Some(Ok(TagEnd)), None],
      [(At(26, None, Normal), 24), (At(27, None, Normal), 25), (At(27, None, Normal).(eofHandled := true), 25)]);
    ReplaysCons(Step(CDataText, cc), At(22, None, Normal), 20, Some(Ok(Whitespace(' '))), (At(23, None, Normal), 21),
      [Some(Ok(ClosingTagStart)), Some(Ok(Character('a'))), Some(Ok(TagEnd)), None],
      [(At(25, None, Normal), 23), (At(26, None, Normal), 24), (At(27, None, Normal), 25),
       (At(27, None, Normal).(eofHandled := true), 25)]);
  }

  /** Calls 6 to 15 of `cdata_test`, to the end of the stream: five more in front of the calls from 11 on. */
  lemma CDataReplays2(cc: CharClasses)
    requires cc.isWhitespace(' ') && !cc.isWhitespace('a') && !cc.isWhitespace('y')
    ensures Replays(Step(CDataText, cc), At(14, None, Normal), 13,
                    [Some(Ok(Whitespace(' '))), Some(Ok(Character('y'))), Some(Ok(Whitespace(' '))), Some(Ok(Character('?'))),
                     Some(Ok(CDataEnd)), Some(Ok(Whitespace(' '))), Some(Ok(ClosingTagStart)), Some(Ok(Character('a'))),
                     Some(Ok(TagEnd)), None],
                    [(At(15, None, Normal), 14), (At(16, None, Normal), 15), (At(17, None, Normal), 16),
                     (At(19, Some(']'), Normal), 18), (At(22, None, Normal), 20), (At(23, None, Normal), 21),
                     (At(25, None, Normal), 23), (At(26, None, Normal), 24), (At(27, None, Normal), 25),
                     (At(27, None, Normal).(eofHandled := true), 25)])
  {
    CDataReplays3(cc);
    CDataCall6(cc);
    CDataCall7(cc);
    CDataCall8(cc);
    CDataCall9(cc);
    CDataCall10(cc);
    ReplaysCons(Step(CDataText, cc), At(19, Some(']'), Normal), 18, Some(Ok(CDataEnd)), (At(22, None, Normal), 20),
      [Some(Ok(Whitespace(' '))), Some(Ok(ClosingTagStart)), Some(Ok(Character('a'))), Some(Ok(TagEnd)),
       None],
      [(At(23, None, Normal), 21), (At(25, None, Normal), 23), (At(26, None, Normal), 24),
       (At(27, None, Normal), 25), (At(27, None, Normal).(eofHandled := true), 25)]);
    ReplaysCons(Step(CDataText, cc), At(17, None, Normal), 16, Some(Ok(Character('?'))), (At(19, Some(']'), Normal), 18),
      [Some(Ok(CDataEnd)), Some(Ok(Whitespace(' '))), Some(Ok(ClosingTagStart)), Some(Ok(Character('a'))),
       Some(Ok(TagEnd)), None],
      [(At(22, None, Normal), 20), (At(23, None, Normal), 21), (At(25, None, Normal), 23),
       (At(26, None, Normal), 24), (At(27, None, Normal), 25), (At(27, None, Normal).(eofHandled := true), 25)]);
    ReplaysCons(Step(CDataText, cc), At(16, None, Normal), 15, Some(Ok(Whitespace(' '))), (At(17, None, Normal), 16),
      [Some(Ok(Character('?'))), Some(Ok(CDataEnd)), Some(Ok(Whitespace(' '))), Some(Ok(ClosingTagStart)),
       Some(Ok(Character('a'))), Some(Ok(TagEnd)), None],
      [(At(19, Some(']'), Normal), 18), (At(22, None, Normal), 20), (At(23, None, Normal), 21),
       (At(25, None, Normal), 23), (At(26, None, Normal), 24), (At(27, None, Normal), 25),
       (At(27, None, Normal).(eofHandled := true), 25)]);
    ReplaysCons(Step(CDataText, cc), At(15, None, Normal), 14, Some(Ok(Character('y'))), (At(16, None, Normal), 15),
      [Some(Ok(Whitespace(' '))), Some(Ok(Character('?'))), Some(Ok(CDataEnd)), Some(Ok(Whitespace(' '))),
       Some(Ok(ClosingTagStart)), Some(Ok(Character('a'))), Some(Ok(TagEnd)), None],
      [(At(17, None, Normal), 16), (At(19, Some(']'), Normal), 18), (At(22, None, Normal), 20),
       (At(23, None, Normal), 21), (At(25, None, Normal), 23), (At(26, None, Normal), 24),
       (At(27, None, Normal), 25), (At(27, None, Normal).(eofHandled := true), 25)]);
    ReplaysCons(Step(CDataText, cc), At(14, None, Normal), 13, Some(Ok(Whitespace(' '))), (At(15, None, Normal), 14),
      [Some(Ok(Character('y'))), Some(Ok(Whitespace(' '))), Some(Ok(Character('?'))), Some(Ok(CDataEnd)),
       Some(Ok(Whitespace(' '))), Some(Ok(ClosingTagStart)), Some(Ok(Character('a'))), Some(Ok(TagEnd)),
       None],
      [(At(16, None, Normal), 15), (At(17, None, Normal), 16), (At(19, Some(']'), Normal), 18),
       (At(22, None, Normal), 20), (At(23, None, Normal), 21), (At(25, None, Normal), 23),
       (At(26, None, Normal), 24), (At(27, None, Normal), 25), (At(27, None, Normal).(eofHandled := true), 25)]);
  }

  /** Calls 1 to 15 of `cdata_test`, to the end of the stream: five more in front of the calls from 6 on. */
  lemma CDataReplays1(cc: CharClasses)
    requires cc.isWhitespace(' ') && !cc.isWhitespace('a') && cc.isNameChar('a') && !cc.isWhitespace('x') && !cc.isWhitespace('y')
    ensures Replays(Step(CDataText, cc), New(), 0,
                    [Some(Ok(OpeningTagStart)), Some(Ok(Character('a'))), Some(Ok(TagEnd)), Some(Ok(CDataStart)),
                     Some(Ok(Character('x'))), Some(Ok(Whitespace(' '))), Some(Ok(Character('y'))), Some(Ok(Whitespace(' '))),
                     Some(Ok(Character('?'))), Some(Ok(CDataEnd)), Some(Ok(Whitespace(' '))), Some(Ok(ClosingTagStart)),
                     Some(Ok(Character('a'))), Some(Ok(TagEnd)), None],
                    [(At(2, Some('a'), Normal), 2), (At(3, None, Normal), 2), (At(4, None, Normal), 3),
                     (At(13, None, Normal), 12), (At(14, None, Normal), 13), (At(15, None, Normal), 14),
                     (At(16, None, Normal), 15), (At(17, None, Normal), 16), (At(19, Some(']'), Normal), 18),
                     (At(22, None, Normal), 20), (At(23, None, Normal), 21), (At(25, None, Normal), 23),
                     (At(26, None, Normal), 24), (At(27, None, Normal), 25), (At(27, None, Normal).(eofHandled := true), 25)])
  {
    CDataReplays2(cc);
    CDataCall1(cc);
    CDataCall2(cc);
    CDataCall3(cc);
    CDataCall4(cc);
    CDataCall5(cc);
    ReplaysCons(Step(CDataText, cc), At(13, None, Normal), 12, Some(Ok(Character('x'))), (At(14, None, Normal), 13),
      [Some(Ok(Whitespace(' '))), Some(Ok(Character('y'))), Some(Ok(Whitespace(' '))), Some(Ok(Character('?'))),
       Some(Ok(CDataEnd)), Some(Ok(Whitespace(' '))), Some(Ok(ClosingTagStart)), Some(Ok(Character('a'))),
       Some(Ok(TagEnd)), None],
      [(At(15, None, Normal), 14), (At(16, None, Normal), 15), (At(17, None, Normal), 16),
       (At(19, Some(']'), Normal), 18), (At(22, None, Normal), 20), (At(23, None, Normal), 21),
       (At(25, None, Normal), 23), (At(26, None, Normal), 24), (At(27, None, Normal), 25),
       (At(27, None, Normal).(eofHandled := true), 25)]);
    ReplaysCons(Step(CDataText, cc), At(4, None, Normal), 3, Some(Ok(CDataStart)), (At(13, None, Normal), 12),
      [Some(Ok(Character('x'))), Some(Ok(Whitespace(' '))), Some(Ok(Character('y'))), Some(Ok(Whitespace(' '))),
       Some(Ok(Character('?'))), Some(Ok(CDataEnd)), Some(Ok(Whitespace(' '))), Some(Ok(ClosingTagStart)),
       Some(Ok(Character('a'))), Some(Ok(TagEnd)), None],
      [(At(14, None, Normal), 13), (At(15, None, Normal), 14), (At(16, None, Normal), 15),
       (At(17, None, Normal), 16), (At(19, Some(']'), Normal), 18), (At(22, None, Normal), 20),
       (At(23, None, Normal), 21), (At(25, None, Normal), 23), (At(26, None, Normal), 24),
       (At(27, None, Normal), 25), (At(27, None, Normal).(eofHandled := true), 25)]);
    ReplaysCons(Step(CDataText, cc), At(3, None, Normal), 2, Some(Ok(TagEnd)), (At(4, None, Normal), 3),
      [Some(Ok(CDataStart)), Some(Ok(Character('x'))), Some(Ok(Whitespace(' '))), Some(Ok(Character('y'))),
       Some(Ok(Whitespace(' '))), Some(Ok(Character('?'))), Some(Ok(CDataEnd)), Some(Ok(Whitespace(' '))),
       Some(Ok(ClosingTagStart)), Some(Ok(Character('a'))), Some(Ok(TagEnd)), None],
      [(At(13, None, Normal), 12), (At(14, None, Normal), 13), (At(15, None, Normal), 14),
       (At(16, None, Normal), 15), (At(17, None, Normal), 16), (At(19, Some(']'), Normal), 18),
       (At(22, None, Normal), 20), (At(23, None, Normal), 21), (At(25, None, Normal), 23),
       (At(26, None, Normal), 24), (At(27, None, Normal), 25), (At(27, None, Normal).(eofHandled := true), 25)]);
    ReplaysCons(Step(CDataText, cc), At(2, Some('a'), Normal), 2, Some(Ok(Character('a'))), (At(3, None, Normal), 2),
      [Some(Ok(TagEnd)), Some(Ok(CDataStart)), Some(Ok(Character('x'))), Some(Ok(Whitespace(' '))),
       Some(Ok(Character('y'))), Some(Ok(Whitespace(' '))), Some(Ok(Character('?'))), Some(Ok(CDataEnd)),
       Some(Ok(Whitespace(' '))), Some(Ok(ClosingTagStart)), Some(Ok(Character('a'))), Some(Ok(TagEnd)),
       None],
      [(At(4, None, Normal), 3), (At(13, None, Normal), 12), (At(14, None, Normal), 13), (At(15, None, Normal), 14),
       (At(16, None, Normal), 15), (At(17, None, Normal), 16), (At(19, Some(']'), Normal), 18),
       (At(22, None, Normal), 20), (At(23, None, Normal), 21), (At(25, None, Normal), 23),
       (At(26, None, Normal), 24), (At(27, None, Normal), 25), (At(27, None, Normal).(eofHandled := true), 25)]);
    ReplaysCons(Step(CDataText, cc), New(), 0, Some(Ok(OpeningTagStart)), (At(2, Some('a'), Normal), 2),
      [Some(Ok(Character('a'))), Some(Ok(TagEnd)), Some(Ok(CDataStart)), Some(Ok(Character('x'))),
       Some(Ok(Whitespace(' '))), Some(Ok(Character('y'))), Some(Ok(Whitespace(' '))), Some(Ok(Character('?'))),
       Some(Ok(CDataEnd)), Some(Ok(Whitespace(' '))), Some(Ok(ClosingTagStart)), Some(Ok(Character('a'))),
       Some(Ok(TagEnd)), None],
      [(At(3, None, Normal), 2), (At(4, None, Normal), 3), (At(13, None, Normal), 12), (At(14, None, Normal), 13),
       (At(15, None, Normal), 14), (At(16, None, Normal), 15), (At(17, None, Normal), 16),
       (At(19, Some(']'), Normal), 18), (At(22, None, Normal), 20), (At(23, None, Normal), 21),
       (At(25, None, Normal), 23), (At(26, None, Normal), 24), (At(27, None, Normal), 25),
       (At(27, None, Normal).(eofHandled := true), 25)]);
  }

  /** Call 1 of `doctype_test` reads `<a` and returns `OpeningTagStart`, holding `a` back. */
  lemma DoctypeCall1(cc: CharClasses)
    requires !cc.isWhitespace('a') && cc.isNameChar('a')
    ensures NextTokenSpec(New(), DoctypeText, 0, cc) == Call(Some(Ok(OpeningTagStart)), At(2, Some('a'), Normal), 2)
  {
    ReadPair(0, Normal, DoctypeText, 0, '<', TagOpened, 'a', EmitUnread(Normal, OpeningTagStart), cc);
  }

  /** Call 2 of `doctype_test` takes back the held `a` and returns `Character('a')`. */
  lemma DoctypeCall2(cc: CharClasses)
    requires !cc.isWhitespace('a')
    ensures NextTokenSpec(At(2, Some('a'), Normal), DoctypeText, 2, cc) == Call(Some(Ok(Character('a'))), At(3, None, Normal), 2)
  {
    HeldEmits(2, 'a', DoctypeText, 2, Character('a'), cc);
  }

  /** Call 3 of `doctype_test` reads `>` and returns `TagEnd`. */
  lemma DoctypeCall3(cc: CharClasses)
    ensures NextTokenSpec(At(3, None, Normal), DoctypeText, 2, cc) == Call(Some(Ok(TagEnd)), At(4, None, Normal), 3)
  {
    ReadOne(3, Normal, DoctypeText, 2, '>', Emit(Normal, TagEnd), cc);
  }

  /** Call 4 of `doctype_test` reads `<!DOCTYPE` and returns `DoctypeStart`. */
  lemma DoctypeCall4(cc: CharClasses)
    ensures NextTokenSpec(At(4, None, Normal), DoctypeText, 3, cc) == Call(Some(Ok(DoctypeStart)), At(13, None, Normal), 12)
  {
    DoctypeOpenerRead(4, "<a>", " ab xx z> ", cc);
  }

  /** Call 5 of `doctype_test` reads ` ` and returns `Whitespace(' ')`. */
  lemma DoctypeCall5(cc: CharClasses)
    requires cc.isWhitespace(' ')
    ensures NextTokenSpec(At(13, None, Normal), DoctypeText, 12, cc) == Call(Some(Ok(Whitespace(' '))), At(14, None, Normal), 13)
  {
    ReadOne(13, Normal, DoctypeText, 12, ' ', Emit(Normal, Whitespace(' ')), cc);
  }

  /** Call 6 of `doctype_test` reads `a` and returns `Character('a')`. */
  lemma DoctypeCall6(cc: CharClasses)
    requires !cc.isWhitespace('a')
    ensures NextTokenSpec(At(14, None, Normal), DoctypeText, 13, cc) == Call(Some(Ok(Character('a'))), At(15, None, Normal), 14)
  {
    ReadOne(14, Normal, DoctypeText, 13, 'a', Emit(Normal, Character('a')), cc);
  }

  /** Call 7 of `doctype_test` reads `b` and returns `Character('b')`. */
  lemma DoctypeCall7(cc: CharClasses)
    requires !cc.isWhitespace('b')
    ensures NextTokenSpec(At(15, None, Normal), DoctypeText, 14, cc) == Call(Some(Ok(Character('b'))), At(16, None, Normal), 15)
  {
    ReadOne(15, Normal, DoctypeText, 14, 'b', Emit(Normal, Character('b')), cc);
  }

  /** Call 8 of `doctype_test` reads ` ` and returns `Whitespace(' ')`. */
  lemma DoctypeCall8(cc: CharClasses)
    requires cc.isWhitespace(' ')
    ensures NextTokenSpec(At(16, None, Normal), DoctypeText, 15, cc) == Call(Some(Ok(Whitespace(' '))), At(17, None, Normal), 16)
  {
    ReadOne(16, Normal, DoctypeText, 15, ' ', Emit(Normal, Whitespace(' ')), cc);
  }

  /** Call 9 of `doctype_test` reads `x` and returns `Character('x')`. */
  lemma DoctypeCall9(cc: CharClasses)
    requires !cc.isWhitespace('x')
    ensures NextTokenSpec(At(17, None, Normal), DoctypeText, 16, cc) == Call(Some(Ok(Character('x'))), At(18, None, Normal), 17)
  {
    ReadOne(17, Normal, DoctypeText, 16, 'x', Emit(Normal, Character('x')), cc);
  }

  /** Call 10 of `doctype_test` reads `x` and returns `Character('x')`. */
  lemma DoctypeCall10(cc: CharClasses)
    requires !cc.isWhitespace('x')
    ensures NextTokenSpec(At(18, None, Normal), DoctypeText, 17, cc) == Call(Some(Ok(Character('x'))), At(19, None, Normal), 18)
  {
    ReadOne(18, Normal, DoctypeText, 17, 'x', Emit(Normal, Character('x')), cc);
  }

  /** Call 11 of `doctype_test` reads ` ` and returns `Whitespace(' ')`. */
  lemma DoctypeCall11(cc: CharClasses)
    requires cc.isWhitespace(' ')
    ensures NextTokenSpec(At(19, None, Normal), DoctypeText, 18, cc) == Call(Some(Ok(Whitespace(' '))), At(20, None, Normal), 19)
  {
    ReadOne(19, Normal, DoctypeText, 18, ' ', Emit(Normal, Whitespace(' ')), cc);
  }

  /** Call 12 of `doctype_test` reads `z` and returns `Character('z')`. */
  lemma DoctypeCall12(cc: CharClasses)
    requires !cc.isWhitespace('z')
    ensures NextTokenSpec(At(20, None, Normal), DoctypeText, 19, cc) == Call(Some(Ok(Character('z'))), At(21, None, Normal), 20)
  {
    ReadOne(20, Normal, DoctypeText, 19, 'z', Emit(Normal, Character('z')), cc);
  }

  /** Call 13 of `doctype_test` reads `>` and returns `TagEnd`. */
  lemma DoctypeCall13(cc: CharClasses)
    ensures NextTokenSpec(At(21, None, Normal), DoctypeText, 20, cc) == Call(Some(Ok(TagEnd)), At(22, None, Normal), 21)
  {
    ReadOne(21, Normal, DoctypeText, 20, '>', Emit(Normal, TagEnd), cc);
  }

  /** Call 14 of `doctype_test` reads ` ` and returns `Whitespace(' ')`. */
  lemma DoctypeCall14(cc: CharClasses)
    requires cc.isWhitespace(' ')
    ensures NextTokenSpec(At(22, None, Normal), DoctypeText, 21, cc) == Call(Some(Ok(Whitespace(' '))), At(23, None, Normal), 22)
  {
    ReadOne(22, Normal, DoctypeText, 21, ' ', Emit(Normal, Whitespace(' ')), cc);
  }

  /** Call 15 of `doctype_test` reads nothing and returns nothing, the stream having ended. */
  lemma DoctypeCall15(cc: CharClasses)
    ensures NextTokenSpec(At(23, None, Normal), DoctypeText, 22, cc) == Call(None, At(23, None, Normal).(eofHandled := true), 22)
  {
    ReadToEnd(23, Normal, DoctypeText, 22, Normal, cc);
  }

  /** Calls 11 to 15 of `doctype_test`, to the end of the stream. */
  lemma DoctypeReplays3(cc: CharClasses)
    requires cc.isWhitespace(' ') && !cc.isWhitespace('z')
    ensures Replays(Step(DoctypeText, cc), At(19, None, Normal), 18,
                    [Some(Ok(Whitespace(' '))), Some(Ok(Character('z'))), Some(Ok(TagEnd)), Some(Ok(Whitespace(' '))),
                     None],
                    [(At(20, None, Normal), 19), (At(21, None, Normal), 20), (At(22, None, Normal), 21),
                     (At(23, None, Normal), 22), (At(23, None, Normal).(eofHandled := true), 22)])
  {
    DoctypeCall11(cc);
    DoctypeCall12(cc);
    DoctypeCall13(cc);
    DoctypeCall14(cc);
    DoctypeCall15(cc);
    ReplaysCons(Step(DoctypeText, cc), At(23, None, Normal), 22, None, (At(23, None, Normal).(eofHandled := true), 22),
      [],
      []);
    ReplaysCons(Step(DoctypeText, cc), At(22, None, Normal), 21, Some(Ok(Whitespace(' '))), (At(23, None, Normal), 22),
      [None],
      [(At(23, None, Normal).(eofHandled := true), 22)]);
    ReplaysCons(Step(DoctypeText, cc), At(21, None, Normal), 20, Some(Ok(TagEnd)), (At(22, None, Normal), 21),
      [Some(Ok(Whitespace(' '))), None],
      [(At(23, None, Normal), 22), (At(23, None, Normal).(eofHandled := true), 22)]);
    ReplaysCons(Step(DoctypeText, cc), At(20, None, Normal), 19, Some(Ok(Character('z'))), (At(21, None, Normal), 20),
      [Some(Ok(TagEnd)), Some(Ok(Whitespace(' '))), None],
      [(At(22, None, Normal), 21), (At(23, None, Normal), 22), (At(23, None, Normal).(eofHandled := true), 22)]);
    ReplaysCons(Step(DoctypeText, cc), At(19, None, Normal), 18, Some(Ok(Whitespace(' '))), (At(20, None, Normal), 19),
      [Some(Ok(Character('z'))), Some(Ok(TagEnd)), Some(Ok(Whitespace(' '))), None],
      [(At(21, None, Normal), 20), (At(22, None, Normal), 21), (At(23, None, Normal), 22),
       (At(23, None, Normal).(eofHandled := true), 22)]);
  }

  /** Calls 6 to 15 of `doctype_test`, to the end of the stream: five more in front of the calls from 11 on. */
  lemma DoctypeReplays2(cc: CharClasses)
    requires cc.isWhitespace(' ') && !cc.isWhitespace('a') && !cc.isWhitespace('b') && !cc.isWhitespace('x') && !cc.isWhitespace('z')
    ensures Replays(Step(DoctypeText, cc), At(14, None, Normal), 13,
                    [Some(Ok(Character('a'))), Some(Ok(Character('b'))), Some(Ok(Whitespace(' '))), Some(Ok(Character('x'))),
                     Some(Ok(Character('x'))), Some(Ok(Whitespace(' '))), Some(Ok(Character('z'))), Some(Ok(TagEnd)),
                     Some(Ok(Whitespace(' '))), None],
                    [(At(15, None, Normal), 14), (At(16, None, Normal), 15), (At(17, None, Normal), 16),
                     (At(18, None, Normal), 17), (At(19, None, Normal), 18), (At(20, None, Normal), 19),
                     (At(21, None, Normal), 20), (At(22, None, Normal), 21), (At(23, None, Normal), 22),
                     (At(23, None, Normal).(eofHandled := true), 22)])
  {
    DoctypeReplays3(cc);
    DoctypeCall6(cc);
    DoctypeCall7(cc);
    DoctypeCall8(cc);
    DoctypeCall9(cc);
    DoctypeCall10(cc);
    ReplaysCons(Step(DoctypeText, cc), At(18, None, Normal), 17, Some(Ok(Character('x'))), (At(19, None, Normal), 18),
      [Some(Ok(Whitespace(' '))), Some(Ok(Character('z'))), Some(Ok(TagEnd)), Some(Ok(Whitespace(' '))),
       None],
      [(At(20, None, Normal), 19), (At(21, None, Normal), 20), (At(22, None, Normal), 21),
       (At(23, None, Normal), 22), (At(23, None, Normal).(eofHandled := true), 22)]);
    ReplaysCons(Step(DoctypeText, cc), At(17, None, Normal), 16, Some(Ok(Character('x'))), (At(18, None, Normal), 17),
      [Some(Ok(Character('x'))), Some(Ok(Whitespace(' '))), Some(Ok(Character('z'))), Some(Ok(TagEnd)),
       Some(Ok(Whitespace(' '))), None],
      [(At(19, None, Normal), 18), (At(20, None, Normal), 19), (At(21, None, Normal), 20),
       (At(22, None, Normal), 21), (At(23, None, Normal), 22), (At(23, None, Normal).(eofHandled := true), 22)]);
    ReplaysCons(Step(DoctypeText, cc), At(16, None, Normal), 15, Some(Ok(Whitespace(' '))), (At(17, None, Normal), 16),
      [Some(Ok(Character('x'))), Some(Ok(Character('x'))), Some(Ok(Whitespace(' '))), Some(Ok(Character('z'))),
       Some(Ok(TagEnd)), Some(Ok(Whitespace(' '))), None],
      [(At(18, None, Normal), 17), (At(19, None, Normal), 18), (At(20, None, Normal), 19),
       (At(21, None, Normal), 20), (At(22, None, Normal), 21), (At(23, None, Normal), 22),
       (At(23, None, Normal).(eofHandled := true), 22)]);
    ReplaysCons(Step(DoctypeText, cc), At(15, None, Normal), 14, Some(Ok(Character('b'))), (At(16, None, Normal), 15),
      [Some(Ok(Whitespace(' '))), Some(Ok(Character('x'))), Some(Ok(Character('x'))), Some(Ok(Whitespace(' '))),
       Some(Ok(Character('z'))), Some(Ok(TagEnd)), Some(Ok(Whitespace(' '))), None],
      [(At(17, None, Normal), 16), (At(18, None, Normal), 17), (At(19, None, Normal), 18),
       (At(20, None, Normal), 19), (At(21, None, Normal), 20), (At(22, None, Normal), 21),
       (At(23, None, Normal), 22), (At(23, None, Normal).(eofHandled := true), 22)]);
    ReplaysCons(Step(DoctypeText, cc), At(14, None, Normal), 13, Some(Ok(Character('a'))), (At(15, None, Normal), 14),
      [Some(Ok(Character('b'))), Some(Ok(Whitespace(' '))), Some(Ok(Character('x'))), Some(Ok(Character('x'))),
       Some(Ok(Whitespace(' '))), Some(Ok(Character('z'))), Some(Ok(TagEnd)), Some(Ok(Whitespace(' '))),
       None],
      [(At(16, None, Normal), 15), (At(17, None, Normal), 16), (At(18, None, Normal), 17),
       (At(19, None, Normal), 18), (At(20, None, Normal), 19), (At(21, None, Normal), 20),
       (At(22, None, Normal), 21), (At(23, None, Normal), 22), (At(23, None, Normal).(eofHandled := true), 22)]);
  }

  /** Calls 1 to 15 of `doctype_test`, to the end of the stream: five more in front of the calls from 6 on. */
  lemma DoctypeReplays1(cc: CharClasses)
    requires cc.isWhitespace(' ') && !cc.isWhitespace('a') && cc.isNameChar('a') && !cc.isWhitespace('b') && !cc.isWhitespace('x') && !cc.isWhitespace('z')
    ensures Replays(Step(DoctypeText, cc), New(), 0,
                    [Some(Ok(OpeningTagStart)), Some(Ok(Character('a'))), Some(Ok(TagEnd)), Some(Ok(DoctypeStart)),
                     Some(Ok(Whitespace(' '))), Some(Ok(Character('a'))), Some(Ok(Character('b'))), Some(Ok(Whitespace(' '))),
                     Some(Ok(Character('x'))), Some(Ok(Character('x'))), Some(Ok(Whitespace(' '))), Some(Ok(Character('z'))),
                     Some(Ok(TagEnd)), Some(Ok(Whitespace(' '))), None],
                    [(At(2, Some('a'), Normal), 2), (At(3, None, Normal), 2), (At(4, None, Normal), 3),
                     (At(13, None, Normal), 12), (At(14, None, Normal), 13), (At(15, None, Normal), 14),
                     (At(16, None, Normal), 15), (At(17, None, Normal), 16), (At(18, None, Normal), 17),
                     (At(19, None, Normal), 18), (At(20, None, Normal), 19), (At(21, None, Normal), 20),
                     (At(22, None, Normal), 21), (At(23, None, Normal), 22), (At(23, None, Normal).(eofHandled := true), 22)])
  {
    DoctypeReplays2(cc);
    DoctypeCall1(cc);
    DoctypeCall2(cc);
    DoctypeCall3(cc);
    DoctypeCall4(cc);
    DoctypeCall5(cc);
    ReplaysCons(Step(DoctypeText, cc), At(13, None, Normal), 12, Some(Ok(Whitespace(' '))), (At(14, None, Normal), 13),
      [Some(Ok(Character('a'))), Some(Ok(Character('b'))), Some(Ok(Whitespace(' '))), Some(Ok(Character('x'))),
       Some(Ok(Character('x'))), Some(Ok(Whitespace(' '))), Some(Ok(Character('z'))), Some(Ok(TagEnd)),
       Some(Ok(Whitespace(' '))), None],
      [(At(15, None, Normal), 14), (At(16, None, Normal), 15), (At(17, None, Normal), 16),
       (At(18, None, Normal), 17), (At(19, None, Normal), 18), (At(20, None, Normal), 19),
       (At(21, None, Normal), 20), (At(22, None, Normal), 21), (At(23, None, Normal), 22),
       (At(23, None, Normal).(eofHandled := true), 22)]);
    ReplaysCons(Step(DoctypeText, cc), At(4, None, Normal), 3, Some(Ok(DoctypeStart)), (At(13, None, Normal), 12),
      [Some(Ok(Whitespace(' '))), Some(Ok(Character('a'))), Some(Ok(Character('b'))), Some(Ok(Whitespace(' '))),
       Some(Ok(Character('x'))), Some(Ok(Character('x'))), Some(Ok(Whitespace(' '))), Some(Ok(Character('z'))),
       Some(Ok(TagEnd)), Some(Ok(Whitespace(' '))), None],
      [(At(14, None, Normal), 13), (At(15, None, Normal), 14), (At(16, None, Normal), 15),
       (At(17, None, Normal), 16), (At(18, None, Normal), 17), (At(19, None, Normal), 18),
       (At(20, None, Normal), 19), (At(21, None, Normal), 20), (At(22, None, Normal), 21),
       (At(23, None, Normal), 22), (At(23, None, Normal).(eofHandled := true), 22)]);
    ReplaysCons(Step(DoctypeText, cc), At(3, None, Normal), 2, Some(Ok(TagEnd)), (At(4, None, Normal), 3),
      [Some(Ok(DoctypeStart)), Some(Ok(Whitespace(' '))), Some(Ok(Character('a'))), Some(Ok(Character('b'))),
       Some(Ok(Whitespace(' '))), Some(Ok(Character('x'))), Some(Ok(Character('x'))), Some(Ok(Whitespace(' '))),
       Some(Ok(Character('z'))), Some(Ok(TagEnd)), Some(Ok(Whitespace(' '))), None],
      [(At(13, None, Normal), 12), (At(14, None, Normal), 13), (At(15, None, Normal), 14),
       (At(16, None, Normal), 15), (At(17, None, Normal), 16), (At(18, None, Normal), 17),
       (At(19, None, Normal), 18), (At(20, None, Normal), 19), (At(21, None, Normal), 20),
       (At(22, None, Normal), 21), (At(23, None, Normal), 22), (At(23, None, Normal).(eofHandled := true), 22)]);
    ReplaysCons(Step(DoctypeText, cc), At(2, Some('a'), Normal), 2, Some(Ok(Character('a'))), (At(3, None, Normal), 2),
      [Some(Ok(TagEnd)), Some(Ok(DoctypeStart)), Some(Ok(Whitespace(' '))), Some(Ok(Character('a'))),
       Some(Ok(Character('b'))), Some(Ok(Whitespace(' '))), Some(Ok(Character('x'))), Some(Ok(Character('x'))),
       Some(Ok(Whitespace(' '))), Some(Ok(Character('z'))), Some(Ok(TagEnd)), Some(Ok(Whitespace(' '))),
       None],
      [(At(4, None, Normal), 3), (At(13, None, Normal), 12), (At(14, None, Normal), 13), (At(15, None, Normal), 14),
       (At(16, None, Normal), 15), (At(17, None, Normal), 16), (At(18, None, Normal), 17),
       (At(19, None, Normal), 18), (At(20, None, Normal), 19), (At(21, None, Normal), 20),
       (At(22, None, Normal), 21), (At(23, None, Normal), 22), (At(23, None, Normal).(eofHandled := true), 22)]);
    ReplaysCons(Step(DoctypeText, cc), New(), 0, Some(Ok(OpeningTagStart)), (At(2, Some('a'), Normal), 2),
      [Some(Ok(Character('a'))), Some(Ok(TagEnd)), Some(Ok(DoctypeStart)), Some(Ok(Whitespace(' '))),
       Some(Ok(Character('a'))), Some(Ok(Character('b'))), Some(Ok(Whitespace(' '))), Some(Ok(Character('x'))),
       Some(Ok(Character('x'))), Some(Ok(Whitespace(' '))), Some(Ok(Character('z'))), Some(Ok(TagEnd)),
       Some(Ok(Whitespace(' '))), None],
      [(At(3, None, Normal), 2), (At(4, None, Normal), 3), (At(13, None, Normal), 12), (At(14, None, Normal), 13),
       (At(15, None, Normal), 14), (At(16, None, Normal), 15), (At(17, None, Normal), 16),
       (At(18, None, Normal), 17), (At(19, None, Normal), 18), (At(20, None, Normal), 19),
       (At(21, None, Normal), 20), (At(22, None, Normal), 21), (At(23, None, Normal), 22),
       (At(23, None, Normal).(eofHandled := true), 22)]);
  }

  /** `special_chars_test`: special characters with no markup around them come back one by one. */
  lemma SpecialCharsTest(cc: CharClasses)
    requires cc.isWhitespace(' ')
    requires !cc.isWhitespace('x') && !cc.isWhitespace('!') && !cc.isWhitespace('+')
    requires !cc.isWhitespace('|') && !cc.isWhitespace('z')
    ensures Run(New(), SpecialCharsText, 0, 15, cc).0
            == [Some(Ok(Character('?'))), Some(Ok(Character('x'))), Some(Ok(Character('!'))),
                Some(Ok(Character('+'))), Some(Ok(Whitespace(' '))), Some(Ok(Character('/'))),
                Some(Ok(Character('/'))), Some(Ok(Whitespace(' '))), Some(Ok(Character('-'))),
                Some(Ok(Character('|'))), Some(Ok(Whitespace(' '))), Some(Ok(Character(']'))),
                Some(Ok(Character('z'))), Some(Ok(Chunk("]]"))), None]
  {
    SpecialCharsReplays1(cc);
    ReplaysRun(New(), SpecialCharsText, 0,
      [Some(Ok(Character('?'))), Some(Ok(Character('x'))), Some(Ok(Character('!'))), Some(Ok(Character('+'))),
       Some(Ok(Whitespace(' '))), Some(Ok(Character('/'))), Some(Ok(Character('/'))), Some(Ok(Whitespace(' '))),
       Some(Ok(Character('-'))), Some(Ok(Character('|'))), Some(Ok(Whitespace(' '))), Some(Ok(Character(']'))),
       Some(Ok(Character('z'))), Some(Ok(Chunk("]]"))), None],
      [(At(2, Some('x'), Normal), 2), (At(3, None, Normal), 2), (At(4, None, Normal), 3),
       (At(5, None, Normal), 4), (At(6, None, Normal), 5), (At(8, Some('/'), Normal), 7),
       (At(10, Some(' '), Normal), 8), (At(11, None, Normal), 8), (At(13, Some('|'), Normal), 10),
       (At(14, None, Normal), 10), (At(15, None, Normal), 11), (At(17, Some('z'), Normal), 13),
       (At(18, None, Normal), 13), (At(20, None, CDataClosing(Second)).(eofHandled := true), 15),
       (At(20, None, CDataClosing(Second)).(eofHandled := true), 15)], cc);
  }

  /** `cdata_test`: a CDATA section inside an element; its text is lexed as ordinary characters. */
  lemma CDataTest(cc: CharClasses)
    requires cc.isWhitespace(' ') && !cc.isWhitespace('a') && cc.isNameChar('a')
    requires !cc.isWhitespace('x') && !cc.isWhitespace('y')
    ensures Run(New(), CDataText, 0, 15, cc).0
            == [Some(Ok(OpeningTagStart)), Some(Ok(Character('a'))), Some(Ok(TagEnd)),
                Some(Ok(CDataStart)), Some(Ok(Character('x'))), Some(Ok(Whitespace(' '))),
                Some(Ok(Character('y'))), Some(Ok(Whitespace(' '))), Some(Ok(Character('?'))),
                Some(Ok(CDataEnd)), Some(Ok(Whitespace(' '))), Some(Ok(ClosingTagStart)),
                Some(Ok(Character('a'))), Some(Ok(TagEnd)), None]
  {
    CDataReplays1(cc);
    ReplaysRun(New(), CDataText, 0,
      [Some(Ok(OpeningTagStart)), Some(Ok(Character('a'))), Some(Ok(TagEnd)), Some(Ok(CDataStart)),
       Some(Ok(Character('x'))), Some(Ok(Whitespace(' '))), Some(Ok(Character('y'))), Some(Ok(Whitespace(' '))),
       Some(Ok(Character('?'))), Some(Ok(CDataEnd)), Some(Ok(Whitespace(' '))), Some(Ok(ClosingTagStart)),
       Some(Ok(Character('a'))), Some(Ok(TagEnd)), None],
      [(At(2, Some('a'), Normal), 2), (At(3, None, Normal), 2), (At(4, None, Normal), 3),
       (At(13, None, Normal), 12), (At(14, None, Normal), 13), (At(15, None, Normal), 14),
       (At(16, None, Normal), 15), (At(17, None, Normal), 16), (At(19, Some(']'), Normal), 18),
       (At(22, None, Normal), 20), (At(23, None, Normal), 21), (At(25, None, Normal), 23),
       (At(26, None, Normal), 24), (At(27, None, Normal), 25), (At(27, None, Normal).(eofHandled := true), 25)], cc);
  }

  /** `doctype_test`: a DOCTYPE opener inside an element, then its words as ordinary characters. */
  lemma DoctypeTest(cc: CharClasses)
    requires cc.isWhitespace(' ') && !cc.isWhitespace('a') && cc.isNameChar('a')
    requires !cc.isWhitespace('b') && !cc.isWhitespace('x') && !cc.isWhitespace('z')
    ensures Run(New(), DoctypeText, 0, 15, cc).0
            == [Some(Ok(OpeningTagStart)), Some(Ok(Character('a'))), Some(Ok(TagEnd)),
                Some(Ok(DoctypeStart)), Some(Ok(Whitespace(' '))), Some(Ok(Character('a'))),
                Some(Ok(Character('b'))), Some(Ok(Whitespace(' '))), Some(Ok(Character('x'))),
                Some(Ok(Character('x'))), Some(Ok(Whitespace(' '))), Some(Ok(Character('z'))),
                Some(Ok(TagEnd)), Some(Ok(Whitespace(' '))), None]
  {
    DoctypeReplays1(cc);
    ReplaysRun(New(), DoctypeText, 0,
      [Some(Ok(OpeningTagStart)), Some(Ok(Character('a'))), Some(Ok(TagEnd)), Some(Ok(DoctypeStart)),
       Some(Ok(Whitespace(' '))), Some(Ok(Character('a'))), Some(Ok(Character('b'))), Some(Ok(Whitespace(' '))),
       Some(Ok(Character('x'))), Some(Ok(Character('x'))), Some(Ok(Whitespace(' '))), Some(Ok(Character('z'))),
       Some(Ok(TagEnd)), Some(Ok(Whitespace(' '))), None],
      [(At(2, Some('a'), Normal), 2), (At(3, None, Normal), 2), (At(4, None, Normal), 3),
       (At(13, None, Normal), 12), (At(14, None, Normal), 13), (At(15, None, Normal), 14),
       (At(16, None, Normal), 15), (At(17, None, Normal), 16), (At(18, None, Normal), 17),
       (At(19, None, Normal), 18), (At(20, None, Normal), 19), (At(21, None, Normal), 20),
       (At(22, None, Normal), 21), (At(23, None, Normal), 22), (At(23, None, Normal).(eofHandled := true), 22)], cc);
  }
}
