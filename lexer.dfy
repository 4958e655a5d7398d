/**
 * `PullLexer` of src/reader/lexer.rs as a class whose fields the methods
 * update in place, and the character source it pulls from. Every method is
 * proved to compute the pure driver functions of module Driver.
 */
module Lexer {
  import opened Tokens
  import opened Machine
  import opened Driver

  /** A character source: a finite text and a read cursor. */
  class CharSource {
    const data: seq<char>
    var pos: nat

    ghost predicate Valid()
      reads this
    {
      pos <= |data|
    }

    constructor (data: seq<char>)
      ensures Valid() && this.data == data && pos == 0
    {
      this.data := data;
      pos := 0;
    }

    /** Reads one character, or reports that none is left. */
    method ReadChar() returns (r: Option<char>)
      requires Valid()
      modifies this
      ensures Valid()
      ensures old(pos) < |data| ==> r == Some(data[old(pos)]) && pos == old(pos) + 1
      ensures old(pos) == |data| ==> r == None && pos == old(pos)
    {
      if pos < |data| {
        r := Some(data[pos]);
        pos := pos + 1;
      } else {
        r := None;
      }
    }
  }

  class PullLexer {
    var row: nat
    var col: nat
    var tempChar: Option<char>
    var st: State
    var skipErrors: bool
    var eofHandled: bool
    /** The `common` character classes the transitions consult. */
    const classes: CharClasses

    /** The fields as a value. */
    function View(): LexerState
      reads this
    {
      LexerState(row, col, tempChar, st, skipErrors, eofHandled)
    }

    /** `new`: a lexer at (0, 0) in Normal, holding nothing, reporting errors. */
    constructor (classes: CharClasses)
      ensures View() == New() && this.classes == classes
    {
      row, col := 0, 0;
      tempChar := None;
      st := Normal;
      skipErrors := false;
      eofHandled := false;
      this.classes := classes;
    }

    /** Mismatches are reported as errors from now on. */
    method EnableErrors()
      modifies this
      ensures View() == old(View()).(skipErrors := false)
    {
      skipErrors := false;
    }

    /** Mismatches are returned as `Chunk` tokens from now on. */
    method DisableErrors()
      modifies this
      ensures View() == old(View()).(skipErrors := true)
    {
      skipErrors := true;
    }

    /** `move_to`: change state, no token yet. */
    method MoveTo(s: State) returns (r: Option<LexResult>)
      modifies this
      ensures View() == old(View()).(st := s) && r == None
    {
      st := s;
      r := None;
    }

    /** `move_to_with`: change state and return a token. */
    method MoveToWith(s: State, t: Token) returns (r: Option<LexResult>)
      modifies this
      ensures View() == old(View()).(st := s) && r == Some(Ok(t))
    {
      st := s;
      r := Some(Ok(t));
    }

    /** `move_to_with_unread`: hold `c` for the next call, change state, return a token. */
    method MoveToWithUnread(s: State, c: char, t: Token) returns (r: Option<LexResult>)
      modifies this
      ensures View() == old(View()).(tempChar := Some(c), st := s) && r == Some(Ok(t))
    {
      tempChar := Some(c);
      r := MoveToWith(s, t);
    }

    /**
     * `handle_error`: hold `c`; then either return `chunk` as a token and go
     * back to Normal, or return an error that points at the chunk's first
     * character and keep the state.
     */
    method HandleError(chunk: string, c: char) returns (r: Option<LexResult>)
      modifies this
      ensures (View(), r) == Apply(old(View()), Mismatch(chunk), c)
    {
      tempChar := Some(c);
      if skipErrors {
        r := MoveToWith(Normal, Chunk(chunk));
      } else {
        r := Some(Err(Error(row, col - |chunk| - 1, MismatchMessage(chunk, c))));
      }
    }

    /** `dispatch_char`: run the current state's transition on `c` and carry it out. */
    method DispatchChar(c: char) returns (r: Option<LexResult>)
      modifies this
      ensures (View(), r) == Apply(old(View()), Transition(old(st), c, classes), c)
    {
      match Transition(st, c, classes)
      case Stay(s) => r := MoveTo(s);
      case Emit(s, t) => r := MoveToWith(s, t);
      case EmitUnread(s, t) => r := MoveToWithUnread(s, c, t);
      case Mismatch(chunk) => r := HandleError(chunk, c);
    }

    /** `read_next_token`: count `c` into the position, then dispatch it. */
    method ReadNextToken(c: char) returns (r: Option<LexResult>)
      modifies this
      ensures (View(), r) == Feed(old(View()), c, classes)
    {
      if c == '\n' {
        row := row + 1;
        col := 0;
      } else {
        col := col + 1;
      }
      r := DispatchChar(c);
    }

    /**
     * `next_token`: nothing once end of stream was handled; otherwise the
     * held character is dispatched first, then characters are read until one
     * completes a token, and when the source runs dry the pending state is
     * finalized, once.
     */
    method NextToken(src: CharSource) returns (r: Option<LexResult>)
      requires src.Valid()
      modifies this, src
      ensures src.Valid()
      ensures NextTokenSpec(old(View()), src.data, old(src.pos), classes) == Call(r, View(), src.pos)
    {
      ghost var spec := NextTokenSpec(View(), src.data, src.pos, classes);
      if eofHandled {
        return None;
      }
      if tempChar.Some? {
        var c := tempChar.value;
        tempChar := None;
        r := ReadNextToken(c);
        if r.Some? {
          return;
        }
      }
      while true
        invariant src.Valid()
        invariant spec == ReadLoop(View(), src.data, src.pos, classes)
        decreases |src.data| - src.pos
      {
        var exhausted;
        exhausted, r := ReadAndDispatch(src);
        if exhausted {
          break;
        }
        if r.Some? {
          return;
        }
      }
      r := HandleEndOfStream();
    }

    /**
     * One turn of the read loop: read a character (`exhausted` when none is
     * left, and then nothing changes) and dispatch it.
     */
    method ReadAndDispatch(src: CharSource) returns (exhausted: bool, r: Option<LexResult>)
      requires src.Valid()
      modifies this, src
      ensures src.Valid()
      ensures exhausted <==> old(src.pos) == |src.data|
      ensures exhausted ==> View() == old(View()) && src.pos == old(src.pos)
      ensures !exhausted ==>
                && src.pos == old(src.pos) + 1
                && ReadLoop(old(View()), src.data, old(src.pos), classes)
                   == if r.Some? then Call(r, View(), src.pos) else ReadLoop(View(), src.data, src.pos, classes)
    {
      ghost var before := View();
      var next := src.ReadChar();
      if next.None? {
        return true, None;
      }
      r := ReadNextToken(next.value);
      ReadLoopStep(before, src.data, src.pos - 1, classes, (View(), r));
      exhausted := false;
    }

    /**
     * The end-of-stream part of `next_token`: marks end of stream as handled
     * and turns the pending state into an error, a fallback token or nothing.
     */
    method HandleEndOfStream() returns (r: Option<LexResult>)
      modifies this
      ensures (View(), r) == Finalize(old(View()))
    {
      eofHandled := true;
      match st
      case TagOpened | CommentOrCDataOrDoctypeStarted | CommentStarted
        | CDataStarted(_) | DoctypeStarted(_) | CommentClosing(Second) =>
        r := Some(Err(Error(row, col, EndOfStream)));
      case ProcessingInstructionClosing => r := Some(Ok(Character('?')));
      case EmptyTagClosing => r := Some(Ok(Character('/')));
      case CommentClosing(First) => r := Some(Ok(Character('-')));
      case CDataClosing(First) => r := Some(Ok(Character(']')));
      case CDataClosing(Second) => r := Some(Ok(Chunk("]]")));
      case Normal => r := None;
    }
  }
}
