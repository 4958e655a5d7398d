/**
 * What the `next_token` driver of src/reader/lexer.rs promises, proved about
 * the pure model of module Driver. Through the contract of
 * PullLexer.NextToken they hold of the class as well.
 */
module DriverProperties {
  import opened Tokens
  import opened Machine
  import opened Driver

  // ---------------------------------------------------------------------------
  // Position bookkeeping

  /** The position after counting every character of `s`, from (`row`, `col`). */
  function AdvanceAll(row: nat, col: nat, s: seq<char>): (nat, nat)
    decreases |s|
  {
    if s == [] then (row, col)
    else
      var (r, c) := Advance(row, col, s[0]);
      AdvanceAll(r, c, s[1..])
  }

  /** The character held back for the next call, as text. */
  function Held(t: Option<char>): string
  {
    if t.Some? then [t.value] else []
  }

  /** Reading a newline moves to the start of the next row; any other character one column on. */
  lemma FeedPosition(ls: LexerState, c: char, cc: CharClasses)
    ensures var after := Feed(ls, c, cc).0;
            (c == '\n' ==> after.row == ls.row + 1 && after.col == 0) &&
            (c != '\n' ==> after.row == ls.row && after.col == ls.col + 1)
  {
  }

  /** The read loop counts exactly the characters it reads into the position. */
  lemma {:induction false} ReadLoopPosition(ls: LexerState, input: seq<char>, pos: nat, cc: CharClasses)
    requires pos <= |input|
    ensures var call := ReadLoop(ls, input, pos, cc);
            (call.after.row, call.after.col) == AdvanceAll(ls.row, ls.col, input[pos..call.pos])
    decreases |input| - pos
  {
    if pos < |input| {
      var (ls1, r) := Feed(ls, input[pos], cc);
      var call := ReadLoop(ls, input, pos, cc);
      if r.None? {
        ReadLoopPosition(ls1, input, pos + 1, cc);
        assert input[pos..call.pos][1..] == input[pos + 1..call.pos];
      } else {
        assert input[pos..pos + 1][1..] == [];
      }
    }
  }

  /** Text without a newline moves the column on by its length and keeps the row. */
  lemma {:induction false} AdvanceAllWithoutNewline(row: nat, col: nat, s: seq<char>)
    requires '\n' !in s
    ensures AdvanceAll(row, col, s) == (row, col + |s|)
    decreases |s|
  {
    if s != [] {
      assert s == [s[0]] + s[1..];
      AdvanceAllWithoutNewline(row, col + 1, s[1..]);
    }
  }

  /**
   * One `next_token` call counts into the position the held character, if
   * any, and then every character it reads. The held character was already
   * counted by the call that read it, so a pushed-back character is counted
   * twice.
   */
  lemma NextTokenPosition(ls: LexerState, input: seq<char>, pos: nat, cc: CharClasses)
    requires pos <= |input| && !ls.eofHandled
    ensures var call := NextTokenSpec(ls, input, pos, cc);
            (call.after.row, call.after.col)
            == AdvanceAll(ls.row, ls.col, Held(ls.tempChar) + input[pos..call.pos])
  {
    var call := NextTokenSpec(ls, input, pos, cc);
    if ls.tempChar.Some? {
      var c := ls.tempChar.value;
      var (ls1, r) := Feed(ls.(tempChar := None), c, cc);
      if r.None? {
        ReadLoopPosition(ls1, input, pos, cc);
      }
      assert (Held(ls.tempChar) + input[pos..call.pos])[1..] == input[pos..call.pos];
    } else {
      ReadLoopPosition(ls, input, pos, cc);
      assert Held(ls.tempChar) + input[pos..call.pos] == input[pos..call.pos];
    }
  }

  /**
   * While the characters read keep the machine pending, the read loop
   * returns nothing and moves on to the state the machine reaches over them.
   */
  lemma {:induction false} ReadLoopWhilePending(ls: LexerState, input: seq<char>, pos: nat, m: nat, cc: CharClasses)
    requires pos + m <= |input|
    requires Drive(ls.st, input[pos..pos + m], cc).Going?
    ensures var (row, col) := AdvanceAll(ls.row, ls.col, input[pos..pos + m]);
            ReadLoop(ls, input, pos, cc)
            == ReadLoop(ls.(row := row, col := col, st := Drive(ls.st, input[pos..pos + m], cc).st),
                        input, pos + m, cc)
    decreases m
  {
    if m > 0 {
      var w := input[pos..pos + m];
      var o := Transition(ls.st, input[pos], cc);
      assert w[0] == input[pos] && w[1..] == input[pos + 1..pos + m];
      assert o.Stay?;
      assert Drive(ls.st, w, cc) == Drive(o.next, w[1..], cc);
      var fed := Feed(ls, input[pos], cc);
      ReadLoopStep(ls, input, pos, cc, fed);
      ReadLoopWhilePending(fed.0, input, pos + 1, m - 1, cc);
    }
  }

  // ---------------------------------------------------------------------------
  // End of stream

  /** Once end of stream has been handled, every further call returns nothing and changes nothing. */
  lemma {:induction false} ExhaustedStaysExhausted(ls: LexerState, input: seq<char>, pos: nat, n: nat, cc: CharClasses)
    requires pos <= |input| && ls.eofHandled
    ensures var (rs, ls', pos') := Run(ls, input, pos, n, cc);
            ls' == ls && pos' == pos && forall i :: 0 <= i < n ==> rs[i].None?
    decreases n
  {
    if n > 0 {
      ExhaustedStaysExhausted(ls, input, pos, n - 1, cc);
      var (rs, _, _) := Run(ls, input, pos, n, cc);
      var (rest, _, _) := Run(ls, input, pos, n - 1, cc);
      assert rs == [None] + rest;
    }
  }

  /** A call that returns nothing has handled end of stream, so every later call returns nothing too. */
  lemma NothingStaysNothing(ls: LexerState, input: seq<char>, pos: nat, n: nat, cc: CharClasses)
    requires pos <= |input|
    requires NextTokenSpec(ls, input, pos, cc).result.None?
    ensures var call := NextTokenSpec(ls, input, pos, cc);
            var (rs, ls', pos') := Run(call.after, input, call.pos, n, cc);
            ls' == call.after && pos' == call.pos && forall i :: 0 <= i < n ==> rs[i].None?
  {
    var call := NextTokenSpec(ls, input, pos, cc);
    ExhaustedStaysExhausted(call.after, input, call.pos, n, cc);
  }

  /** The pending prefixes with a standalone reading end the stream as these exact tokens. */
  lemma EndOfStreamFallbacks(ls: LexerState)
    ensures ls.st == ProcessingInstructionClosing ==> Finalize(ls).1 == Some(Ok(Character('?')))
    ensures ls.st == EmptyTagClosing ==> Finalize(ls).1 == Some(Ok(Character('/')))
    ensures ls.st == CommentClosing(First) ==> Finalize(ls).1 == Some(Ok(Character('-')))
    ensures ls.st == CDataClosing(First) ==> Finalize(ls).1 == Some(Ok(Character(']')))
    ensures ls.st == CDataClosing(Second) ==> Finalize(ls).1 == Some(Ok(Chunk("]]")))
  {
  }

  /** Finalization does not consult the error mode. */
  lemma EndOfStreamIgnoresMode(ls: LexerState, skip: bool)
    ensures Finalize(ls.(skipErrors := skip)).1 == Finalize(ls).1
  {
  }

  // ---------------------------------------------------------------------------
  // Mismatches

  /**
   * In strict mode a mismatch returns an error naming the pending text and
   * the offending character, at the column where the pending text starts
   * (which may be negative); the state is kept and the character is held.
   */
  lemma StrictMismatch(ls: LexerState, c: char, cc: CharClasses)
    requires !ls.skipErrors && Transition(ls.st, c, cc).Mismatch?
    ensures var (row, col) := Advance(ls.row, ls.col, c);
            Feed(ls, c, cc)
            == (ls.(row := row, col := col, tempChar := Some(c)),
                Some(Err(Error(row, col - |Pending(ls.st)| - 1, MismatchMessage(Pending(ls.st), c)))))
  {
  }

  /**
   * After a strict-mode mismatch the next call dispatches the held character
   * in the same state again, and so returns the same message and is left in
   * the same situation, without reading any input.
   */
  lemma StrictMismatchRepeats(ls: LexerState, input: seq<char>, pos: nat, cc: CharClasses)
    requires pos <= |input| && !ls.eofHandled && !ls.skipErrors
    requires ls.tempChar.Some? && Transition(ls.st, ls.tempChar.value, cc).Mismatch?
    ensures var call := NextTokenSpec(ls, input, pos, cc);
            && call.pos == pos
            && call.result.Some? && call.result.value.Err?
            && call.result.value.error.msg == MismatchMessage(Pending(ls.st), ls.tempChar.value)
            && call.after.st == ls.st && call.after.tempChar == ls.tempChar
            && !call.after.eofHandled && !call.after.skipErrors
  {
    StrictMismatch(ls.(tempChar := None), ls.tempChar.value, cc);
  }

  /** So once a strict-mode mismatch is held, every later call returns that same error message. */
  lemma {:induction false} StrictMismatchForever(ls: LexerState, input: seq<char>, pos: nat, n: nat, cc: CharClasses)
    requires pos <= |input| && !ls.eofHandled && !ls.skipErrors
    requires ls.tempChar.Some? && Transition(ls.st, ls.tempChar.value, cc).Mismatch?
    ensures var (rs, _, p) := Run(ls, input, pos, n, cc);
            p == pos &&
            forall i :: 0 <= i < n ==>
              rs[i].Some? && rs[i].value.Err?
              && rs[i].value.error.msg == MismatchMessage(Pending(ls.st), ls.tempChar.value)
    decreases n
  {
    if n > 0 {
      StrictMismatchRepeats(ls, input, pos, cc);
      var call := NextTokenSpec(ls, input, pos, cc);
      StrictMismatchForever(call.after, input, pos, n - 1, cc);
    }
  }

  /** In lenient mode a mismatch returns the pending text as a Chunk, goes back to Normal and holds the character. */
  lemma LenientMismatch(ls: LexerState, c: char, cc: CharClasses)
    requires ls.skipErrors && Transition(ls.st, c, cc).Mismatch?
    ensures var (row, col) := Advance(ls.row, ls.col, c);
            Feed(ls, c, cc)
            == (ls.(row := row, col := col, tempChar := Some(c), st := Normal),
                Some(Ok(Chunk(Pending(ls.st)))))
  {
  }

  /**
   * After a lenient mismatch the held character is lexed from Normal: when
   * it makes a token on its own, that token is the next call's result and no
   * input is read.
   */
  lemma LenientResumesWithHeldChar(ls: LexerState, input: seq<char>, pos: nat, cc: CharClasses)
    requires pos <= |input| && !ls.eofHandled && ls.st == Normal && ls.tempChar.Some?
    requires OnNormal(ls.tempChar.value, cc).Emit?
    ensures var call := NextTokenSpec(ls, input, pos, cc);
            && call.result == Some(Ok(OnNormal(ls.tempChar.value, cc).tok))
            && call.pos == pos && call.after.tempChar.None? && call.after.st == Normal
  {
  }

  /** In lenient mode the read loop can only fail at end of stream. */
  lemma {:induction false} ReadLoopLenient(ls: LexerState, input: seq<char>, pos: nat, cc: CharClasses)
    requires pos <= |input| && ls.skipErrors
    ensures var call := ReadLoop(ls, input, pos, cc);
            call.result.Some? && call.result.value.Err? ==>
              call.result.value.error.msg == EndOfStream && call.after.eofHandled
    decreases |input| - pos
  {
    if pos < |input| {
      var (ls1, r) := Feed(ls, input[pos], cc);
      if r.None? {
        ReadLoopLenient(ls1, input, pos + 1, cc);
      }
    }
  }

  /** In lenient mode `next_token` returns no error but the one for an unexpected end of stream. */
  lemma LenientErrorsOnlyAtEnd(ls: LexerState, input: seq<char>, pos: nat, cc: CharClasses)
    requires pos <= |input| && ls.skipErrors
    ensures var call := NextTokenSpec(ls, input, pos, cc);
            call.result.Some? && call.result.value.Err? ==>
              call.result.value.error.msg == EndOfStream && call.after.eofHandled
  {
    if !ls.eofHandled {
      if ls.tempChar.Some? {
        var (ls1, r) := Feed(ls.(tempChar := None), ls.tempChar.value, cc);
        if r.None? {
          ReadLoopLenient(ls1, input, pos, cc);
        }
      } else {
        ReadLoopLenient(ls, input, pos, cc);
      }
    }
  }

  // ---------------------------------------------------------------------------
  // Lossless output

  /** The text of a call's result: a token's rendering, nothing otherwise. */
  function RenderResult(r: Option<LexResult>): string
  {
    if r.Some? && r.value.Ok? then Render(r.value.token) else ""
  }

  predicate IsErr(r: Option<LexResult>)
  {
    r.Some? && r.value.Err?
  }

  /** The concatenated renderings of the tokens among `rs`. */
  function Rendered(rs: seq<Option<LexResult>>): string
  {
    if rs == [] then "" else RenderResult(rs[0]) + Rendered(rs[1..])
  }

  predicate AnyErr(rs: seq<Option<LexResult>>)
  {
    exists i :: 0 <= i < |rs| && IsErr(rs[i])
  }

  /**
   * The input read so far is what was returned as tokens (`out`), followed
   * by the pending text and the held character; after end of stream it is
   * all of `out`, unless an error was returned (`erred`).
   */
  ghost predicate Accounted(ls: LexerState, input: seq<char>, pos: nat, out: string, erred: bool)
  {
    pos <= |input| &&
    if !ls.eofHandled then input[..pos] == out + Pending(ls.st) + Held(ls.tempChar)
    else pos == |input| && ls.tempChar.None? && (erred || input == out)
  }

  /** Dispatching one character moves it, with the pending text, into the result, the new pending text or the held slot. */
  lemma FeedAccounts(ls: LexerState, c: char, cc: CharClasses)
    requires ls.tempChar.None?
    ensures var (ls', r) := Feed(ls, c, cc);
            && Pending(ls.st) + [c] == RenderResult(r) + Pending(ls'.st) + Held(ls'.tempChar)
            && ls'.eofHandled == ls.eofHandled
            && (r.None? ==> ls'.tempChar.None?)
  {
    TransitionAccounts(ls.st, c, cc);
  }

  /** The read loop keeps the input accounted for. */
  lemma {:induction false} ReadLoopAccounts(ls: LexerState, input: seq<char>, pos: nat, out: string, erred: bool,
                                            cc: CharClasses)
    requires pos <= |input| && !ls.eofHandled && ls.tempChar.None?
    requires input[..pos] == out + Pending(ls.st)
    ensures var call := ReadLoop(ls, input, pos, cc);
            Accounted(call.after, input, call.pos, out + RenderResult(call.result), erred || IsErr(call.result))
    decreases |input| - pos
  {
    if pos == |input| {
      assert input[..pos] == input;
    } else {
      var fed := Feed(ls, input[pos], cc);
      ReadLoopStep(ls, input, pos, cc, fed);
      FeedAccounts(ls, input[pos], cc);
      AccountedStep(fed.0, input, pos, out, erred, Pending(ls.st), fed.1);
      if fed.1.None? {
        ReadLoopAccounts(fed.0, input, pos + 1, out, erred, cc);
      }
    }
  }

  /** The read loop's step: the character read at `pos` joins the accounted text. */
  lemma AccountedStep(ls: LexerState, input: seq<char>, pos: nat, out: string, erred: bool,
                      pending: string, r: Option<LexResult>)
    requires pos < |input| && !ls.eofHandled
    requires input[..pos] == out + pending
    requires pending + [input[pos]] == RenderResult(r) + Pending(ls.st) + Held(ls.tempChar)
    ensures Accounted(ls, input, pos + 1, out + RenderResult(r), erred || IsErr(r))
    ensures r.None? && ls.tempChar.None? ==> input[..pos + 1] == out + Pending(ls.st)
  {
    calc {
      input[..pos + 1];
      input[..pos] + [input[pos]];
      out + (pending + [input[pos]]);
      out + (RenderResult(r) + Pending(ls.st) + Held(ls.tempChar));
      out + RenderResult(r) + Pending(ls.st) + Held(ls.tempChar);
    }
  }

  /** The held character's re-dispatch: the text it completes leaves the accounted remainder. */
  lemma AccountedHeld(ls: LexerState, input: seq<char>, pos: nat, out: string, erred: bool,
                      consumed: string, r: Option<LexResult>)
    requires pos <= |input| && !ls.eofHandled
    requires input[..pos] == out + consumed
    requires consumed == RenderResult(r) + Pending(ls.st) + Held(ls.tempChar)
    ensures Accounted(ls, input, pos, out + RenderResult(r), erred || IsErr(r))
    ensures r.None? && ls.tempChar.None? ==> input[..pos] == out + Pending(ls.st)
  {
  }

  /** Every `next_token` call keeps the input accounted for. */
  lemma NextTokenAccounts(ls: LexerState, input: seq<char>, pos: nat, out: string, erred: bool, cc: CharClasses)
    requires Accounted(ls, input, pos, out, erred)
    ensures var call := NextTokenSpec(ls, input, pos, cc);
            Accounted(call.after, input, call.pos, out + RenderResult(call.result), erred || IsErr(call.result))
  {
    if !ls.eofHandled {
      if ls.tempChar.Some? {
        var ls0 := ls.(tempChar := None);
        var (ls1, r) := Feed(ls0, ls.tempChar.value, cc);
        FeedAccounts(ls0, ls.tempChar.value, cc);
        AccountedHeld(ls1, input, pos, out, erred, Pending(ls.st) + [ls.tempChar.value], r);
        if r.None? {
          ReadLoopAccounts(ls1, input, pos, out, erred, cc);
        }
      } else {
        ReadLoopAccounts(ls, input, pos, out, erred, cc);
      }
    }
  }

  /** After `n` calls from the fields `ls` at `pos`, the input is accounted for by the tokens returned. */
  ghost predicate RunAccounted(ls: LexerState, input: seq<char>, pos: nat, n: nat, out: string, erred: bool,
                               cc: CharClasses)
    requires pos <= |input|
  {
    var all := Run(ls, input, pos, n, cc);
    Accounted(all.1, input, all.2, out + Rendered(all.0), erred || AnyErr(all.0))
  }

  /** Any number of calls keeps the input accounted for. */
  lemma {:induction false} RunAccounts(ls: LexerState, input: seq<char>, pos: nat, n: nat, out: string, erred: bool,
                                       cc: CharClasses)
    requires Accounted(ls, input, pos, out, erred)
    ensures RunAccounted(ls, input, pos, n, out, erred, cc)
    decreases n
  {
    if n > 0 {
      var call := NextTokenSpec(ls, input, pos, cc);
      NextTokenAccounts(ls, input, pos, out, erred, cc);
      RunAccounts(call.after, input, call.pos, n - 1, out + RenderResult(call.result),
                  erred || IsErr(call.result), cc);
      RunAccountsCons(ls, input, pos, n - 1, out, erred, cc, call);
    }
  }

  /** The accounting after the first call and the `n` after it, as the accounting after all `n + 1`. */
  lemma RunAccountsCons(ls: LexerState, input: seq<char>, pos: nat, n: nat, out: string, erred: bool,
                        cc: CharClasses, call: Call)
    requires pos <= |input| && call == NextTokenSpec(ls, input, pos, cc)
    requires RunAccounted(call.after, input, call.pos, n, out + RenderResult(call.result), erred || IsErr(call.result), cc)
    ensures RunAccounted(ls, input, pos, n + 1, out, erred, cc)
  {
    var rest := Run(call.after, input, call.pos, n, cc);
    RunStep(ls, input, pos, n, cc, call);
    AccountedCons(rest.1, input, rest.2, out, erred, call.result, rest.0);
  }

  /** Accounting for one more result in front of the rest of a run. */
  lemma AccountedCons(ls: LexerState, input: seq<char>, pos: nat, out: string, erred: bool,
                      r: Option<LexResult>, rest: seq<Option<LexResult>>)
    requires Accounted(ls, input, pos, out + RenderResult(r) + Rendered(rest), erred || IsErr(r) || AnyErr(rest))
    ensures Accounted(ls, input, pos, out + Rendered([r] + rest), erred || AnyErr([r] + rest))
  {
    RenderedCons(r, rest);
    AnyErrCons(r, rest);
    assert out + Rendered([r] + rest) == out + RenderResult(r) + Rendered(rest);
  }

  /** The renderings of a result in front of others: its own rendering first. */
  lemma RenderedCons(r: Option<LexResult>, rest: seq<Option<LexResult>>)
    ensures Rendered([r] + rest) == RenderResult(r) + Rendered(rest)
  {
    assert ([r] + rest)[1..] == rest;
  }

  /** A result in front of others: there is an error among them iff it is one or the others hold one. */
  lemma AnyErrCons(r: Option<LexResult>, rest: seq<Option<LexResult>>)
    ensures AnyErr([r] + rest) == (IsErr(r) || AnyErr(rest))
  {
    var rs := [r] + rest;
    assert rs[0] == r;
    if AnyErr(rest) {
      var i :| 0 <= i < |rest| && IsErr(rest[i]);
      assert rs[i + 1] == rest[i];
    }
    if AnyErr(rs) {
      var i :| 0 <= i < |rs| && IsErr(rs[i]);
      if i > 0 {
        assert rest[i - 1] == rs[i];
      }
    }
  }

  /**
   * Lossless output: on a run of a fresh lexer, in either error mode, that
   * ends with "no more tokens" and returned no error, the renderings of the
   * returned tokens concatenate to the input.
   */
  lemma LosslessRun(input: seq<char>, skip: bool, n: nat, cc: CharClasses)
    ensures var (rs, _, _) := Run(New().(skipErrors := skip), input, 0, n, cc);
            n > 0 && rs[n - 1].None? && !AnyErr(rs) ==> Rendered(rs) == input
  {
    var start := New().(skipErrors := skip);
    assert Accounted(start, input, 0, "", false);
    RunAccounts(start, input, 0, n, "", false, cc);
  }
}
