/**
 * The pull driver of src/reader/lexer.rs as pure functions over a snapshot
 * of the lexer's six fields. The class in lexer.dfy is proved to compute
 * exactly these functions.
 */
module Driver {
  import opened Tokens
  import opened Machine

  /** A diagnostic: the position it refers to and its message. */
  datatype Error = Error(row: int, col: int, msg: string)

  /** `LexResult`: a token or an error. */
  datatype LexResult = Ok(token: Token) | Err(error: Error)

  /** The fields of `PullLexer`. */
  datatype LexerState = LexerState(
    row: nat,
    col: nat,
    tempChar: Option<char>,
    st: State,
    skipErrors: bool,
    eofHandled: bool)

  const EndOfStream := "Unexpected end of stream"

  /** The message of a strict-mode mismatch. */
  function MismatchMessage(chunk: string, c: char): (m: string)
    ensures |m| == |chunk| + 26 && m[17..17 + |chunk|] == chunk && m[|m| - 1] == c
  {
    "Unexpected token " + chunk + " before " + [c]
  }

  /** A fresh lexer (`new`): at (0, 0), Normal, nothing held, strict. */
  function New(): (ls: LexerState)
    ensures ls.st == Normal && ls.tempChar == None && !ls.skipErrors && !ls.eofHandled
    ensures ls.row == 0 && ls.col == 0
  {
    LexerState(0, 0, None, Normal, false, false)
  }

  /** The position after reading `c` at (`row`, `col`). */
  function Advance(row: nat, col: nat, c: char): (p: (nat, nat))
    ensures p.0 == row + 1 <==> c == '\n'
    ensures p.0 == row || p.0 == row + 1
    ensures p.0 == row ==> p.1 == col + 1
  {
    if c == '\n' then (row + 1, 0) else (row, col + 1)
  }

  /**
   * Carries out a transition's outcome on the lexer (`move_to`,
   * `move_to_with`, `move_to_with_unread`, `handle_error`); `c` is the
   * character that was dispatched.
   */
  function Apply(ls: LexerState, o: Outcome, c: char): (r: (LexerState, Option<LexResult>))
    ensures r.0.row == ls.row && r.0.col == ls.col
    ensures r.0.skipErrors == ls.skipErrors && r.0.eofHandled == ls.eofHandled
    ensures r.1.None? <==> o.Stay?
  {
    match o
    case Stay(s) => (ls.(st := s), None)
    case Emit(s, t) => (ls.(st := s), Some(Ok(t)))
    case EmitUnread(s, t) => (ls.(tempChar := Some(c), st := s), Some(Ok(t)))
    case Mismatch(chunk) =>
      if ls.skipErrors then
        (ls.(tempChar := Some(c), st := Normal), Some(Ok(Chunk(chunk))))
      else
        (ls.(tempChar := Some(c)),
         Some(Err(Error(ls.row, ls.col - |chunk| - 1, MismatchMessage(chunk, c)))))
  }

  /**
   * What dispatching an outcome does beyond the position: the character is
   * held back by `move_to_with_unread` and by a mismatch; a mismatch is an
   * error, reported at the start of the chunk and leaving the state alone,
   * unless errors are skipped, when the chunk becomes a token and the
   * machine goes back to Normal; every other outcome moves to its state.
   */
  lemma ApplyResults(ls: LexerState, o: Outcome, c: char)
    ensures var r := Apply(ls, o, c);
            && r.0.tempChar == (if o.EmitUnread? || o.Mismatch? then Some(c) else ls.tempChar)
            && (r.1.Some? && r.1.value.Err? <==> o.Mismatch? && !ls.skipErrors)
            && (r.1.Some? && r.1.value.Err? ==>
                  r.0.st == ls.st && r.1.value.error.row == ls.row
                  && r.1.value.error.col + |o.chunk| + 1 == ls.col)
            && (!o.Mismatch? ==> r.0.st == o.next)
            && (o.Mismatch? && ls.skipErrors ==> r.0.st == Normal && r.1 == Some(Ok(Chunk(o.chunk))))
  {
  }

  /** `read_next_token`: count `c` into the position, then dispatch it. */
  function Feed(ls: LexerState, c: char, cc: CharClasses): (r: (LexerState, Option<LexResult>))
    ensures (r.0.row, r.0.col) == Advance(ls.row, ls.col, c)
    ensures r.0.skipErrors == ls.skipErrors && r.0.eofHandled == ls.eofHandled
    ensures r.1.None? <==> Transition(ls.st, c, cc).Stay?
  {
    var (row, col) := Advance(ls.row, ls.col, c);
    var ls1 := ls.(row := row, col := col);
    Apply(ls1, Transition(ls1.st, c, cc), c)
  }

  /** The states that end of stream turns into an error. */
  predicate IncompleteAtEnd(st: State)
  {
    CanMismatch(st) || st == CommentClosing(Second)
  }

  /**
   * End-of-stream finalization: an error at the current position for a
   * pending prefix with no standalone reading, otherwise the pending text
   * itself as a token, and nothing at all in Normal.
   */
  function Finalize(ls: LexerState): (r: (LexerState, Option<LexResult>))
    ensures r.0 == ls.(eofHandled := true)
    ensures r.1.None? <==> ls.st == Normal
    ensures r.1.Some? && r.1.value.Err? <==> IncompleteAtEnd(ls.st)
    ensures r.1.Some? && r.1.value.Err? ==> r.1.value.error == Error(ls.row, ls.col, EndOfStream)
    ensures r.1.Some? && r.1.value.Ok? ==> Render(r.1.value.token) == Pending(ls.st)
  {
    var ls1 := ls.(eofHandled := true);
    match ls.st
    case TagOpened | CommentOrCDataOrDoctypeStarted | CommentStarted
      | CDataStarted(_) | DoctypeStarted(_) | CommentClosing(Second) =>
      (ls1, Some(Err(Error(ls.row, ls.col, EndOfStream))))
    case ProcessingInstructionClosing => (ls1, Some(Ok(Character('?'))))
    case EmptyTagClosing => (ls1, Some(Ok(Character('/'))))
    case CommentClosing(First) => (ls1, Some(Ok(Character('-'))))
    case CDataClosing(First) => (ls1, Some(Ok(Character(']'))))
    case CDataClosing(Second) => (ls1, Some(Ok(Chunk("]]"))))
    case Normal => (ls1, None)
  }

  /** The result of one `next_token` call: what it returns, the new fields, the new cursor. */
  datatype Call = Call(result: Option<LexResult>, after: LexerState, pos: nat)

  /** The read loop of `next_token`, from cursor `pos` of `input`, then finalization. */
  function ReadLoop(ls: LexerState, input: seq<char>, pos: nat, cc: CharClasses): (r: Call)
    requires pos <= |input|
    ensures pos <= r.pos <= |input|
    ensures r.result.None? ==> r.pos == |input| && r.after.eofHandled
    decreases |input| - pos
  {
    if pos == |input| then
      var (ls1, res) := Finalize(ls);
      Call(res, ls1, pos)
    else
      var (ls1, res) := Feed(ls, input[pos], cc);
      if res.Some? then Call(res, ls1, pos + 1) else ReadLoop(ls1, input, pos + 1, cc)
  }

  /** One turn of the read loop. */
  lemma ReadLoopStep(ls: LexerState, input: seq<char>, pos: nat, cc: CharClasses,
                     fed: (LexerState, Option<LexResult>))
    requires pos < |input| && fed == Feed(ls, input[pos], cc)
    ensures ReadLoop(ls, input, pos, cc) ==
            if fed.1.Some? then Call(fed.1, fed.0, pos + 1) else ReadLoop(fed.0, input, pos + 1, cc)
  {
  }

  /**
   * `next_token`: nothing once end of stream was handled; otherwise the held
   * character first, then the read loop.
   */
  function NextTokenSpec(ls: LexerState, input: seq<char>, pos: nat, cc: CharClasses): (r: Call)
    requires pos <= |input|
    ensures pos <= r.pos <= |input|
    ensures r.result.None? ==> r.after.eofHandled && (ls.eofHandled || r.pos == |input|)
  {
    if ls.eofHandled then Call(None, ls, pos)
    else if ls.tempChar.Some? then
      var (ls1, res) := Feed(ls.(tempChar := None), ls.tempChar.value, cc);
      if res.Some? then Call(res, ls1, pos) else ReadLoop(ls1, input, pos, cc)
    else ReadLoop(ls, input, pos, cc)
  }

  /** What `n` successive `next_token` calls return, with the final fields and cursor. */
  function Run(ls: LexerState, input: seq<char>, pos: nat, n: nat, cc: CharClasses)
    : (r: (seq<Option<LexResult>>, LexerState, nat))
    requires pos <= |input|
    ensures |r.0| == n && pos <= r.2 <= |input|
    ensures n > 0 && r.0[n - 1].None? ==> r.1.eofHandled
    decreases n
  {
    if n == 0 then ([], ls, pos)
    else
      var call := NextTokenSpec(ls, input, pos, cc);
      var (rest, ls', pos') := Run(call.after, input, call.pos, n - 1, cc);
      ([call.result] + rest, ls', pos')
  }

  /** The first of `n + 1` calls, followed by the other `n`. */
  lemma RunStep(ls: LexerState, input: seq<char>, pos: nat, n: nat, cc: CharClasses, call: Call)
    requires pos <= |input| && call == NextTokenSpec(ls, input, pos, cc)
    ensures var rest := Run(call.after, input, call.pos, n, cc);
            Run(ls, input, pos, n + 1, cc) == ([call.result] + rest.0, rest.1, rest.2)
  {
  }
}
