/**
 * The keyword chains of the state machine: `<![CDATA[` and `<!DOCTYPE` are
 * recognised one character at a time, and a character that breaks a chain
 * off reports the prefix consumed so far.
 */
module Keywords {
  import opened Tokens
  import opened Machine

  /**
   * What Drive reports over `w` from `st` is accounted for by `w`: a pending
   * state holds the text pending at the start plus all of `w`; an emitted
   * token renders, and a mismatch reports, that text plus the characters of
   * `w` consumed so far (the stopping one included only when it is not
   * pushed back).
   */
  ghost predicate DriveConsistent(st: State, w: seq<char>, p: Progress)
  {
    match p
    case Going(s) => Pending(s) == Pending(st) + w
    case Stopped(i, o) =>
      i < |w| &&
      match o
      case Emit(_, t) => Render(t) == Pending(st) + w[..i + 1]
      case EmitUnread(_, t) => Render(t) == Pending(st) + w[..i]
      case Mismatch(chunk) => chunk == Pending(st) + w[..i]
      case Stay(_) => false
  }

  /** Driving the machine over a word loses and invents no character. */
  lemma {:induction false} DriveAccounts(st: State, w: seq<char>, cc: CharClasses)
    ensures DriveConsistent(st, w, Drive(st, w, cc))
    decreases |w|
  {
    if w != [] {
      var o := Transition(st, w[0], cc);
      TransitionAccounts(st, w[0], cc);
      if o.Stay? {
        DriveAccounts(o.next, w[1..], cc);
        DriveConsistentCons(st, w[0], w[1..], o.next, Drive(o.next, w[1..], cc));
        assert w == [w[0]] + w[1..];
      } else {
        FirstStepConsistent(st, w, o);
      }
    }
  }

  /** A word on whose first character the machine does not stay pending. */
  lemma FirstStepConsistent(st: State, w: seq<char>, o: Outcome)
    requires w != [] && Accounts(st, w[0], o) && !o.Stay?
    ensures DriveConsistent(st, w, Stopped(0, o))
  {
    assert w[..1] == [w[0]];
  }

  /** The inductive step of DriveAccounts, on sequences only. */
  lemma DriveConsistentCons(st: State, c: char, w: seq<char>, s: State, rest: Progress)
    requires Pending(s) == Pending(st) + [c]
    requires DriveConsistent(s, w, rest)
    ensures DriveConsistent(st, [c] + w,
                            match rest
                            case Going(s') => Going(s')
                            case Stopped(i, o) => Stopped(i + 1, o))
  {
    if rest.Stopped? {
      var i := rest.at;
      assert ([c] + w)[..i + 2] == [c] + w[..i + 1];
      assert ([c] + w)[..i + 1] == [c] + w[..i];
    }
  }

  /** Once the state machine is pending, the rest of a word continues from there. */
  lemma {:induction false} DriveAppend(st: State, u: seq<char>, v: seq<char>, cc: CharClasses)
    requires Drive(st, u, cc).Going?
    ensures Drive(st, u + v, cc) ==
            match Drive(Drive(st, u, cc).st, v, cc)
            case Going(s) => Going(s)
            case Stopped(i, o) => Stopped(|u| + i, o)
    decreases |u|
  {
    if u != [] {
      var o := Transition(st, u[0], cc);
      assert o.Stay?;
      assert (u + v)[0] == u[0] && (u + v)[1..] == u[1..] + v;
      assert Drive(st, u, cc) == Drive(o.next, u[1..], cc);
      DriveAppend(o.next, u[1..], v, cc);
    } else {
      assert u + v == v;
    }
  }

  const CDataKeyword := "[CDATA["
  const DoctypeKeyword := "DOCTYPE"

  /** A character on which the state reached from `<!` stays pending extends the pending word. */
  lemma StayAfter(p: seq<char>, st: State, c: char, cc: CharClasses)
    requires Drive(CommentOrCDataOrDoctypeStarted, p, cc) == Going(st)
    requires Transition(st, c, cc).Stay?
    ensures Drive(CommentOrCDataOrDoctypeStarted, p + [c], cc) == Going(Transition(st, c, cc).next)
  {
    DriveAppend(CommentOrCDataOrDoctypeStarted, p, [c], cc);
    assert [c][1..] == [];
  }

  /** A character on which the state reached from `<!` does not stay pending stops the word there. */
  lemma StopAfter(p: seq<char>, st: State, c: char, cc: CharClasses)
    requires Drive(CommentOrCDataOrDoctypeStarted, p, cc) == Going(st)
    requires !Transition(st, c, cc).Stay?
    ensures Drive(CommentOrCDataOrDoctypeStarted, p + [c], cc) == Stopped(|p|, Transition(st, c, cc))
  {
    DriveAppend(CommentOrCDataOrDoctypeStarted, p, [c], cc);
    DriveOne(st, c, cc);
  }

  /** Driving a single character that does not stay pending. */
  lemma DriveOne(st: State, c: char, cc: CharClasses)
    requires !Transition(st, c, cc).Stay?
    ensures Drive(st, [c], cc) == Stopped(0, Transition(st, c, cc))
  {
    assert [c][0] == c;
  }

  /** The substate after the first `k` characters of `[CDATA[`. */
  function CDataStage(k: nat): CDataStartedSubstate
    requires 1 <= k < |CDataKeyword|
  {
    [E, C, CD, CDA, CDAT, CDATA][k - 1]
  }

  /** The substate after the first `k` characters of `DOCTYPE`. */
  function DoctypeStage(k: nat): DoctypeStartedSubstate
    requires 1 <= k < |DoctypeKeyword|
  {
    [D, DO, DOC, DOCT, DOCTY, DOCTYP][k - 1]
  }

  /** From `<!`, every proper non-empty prefix of `[CDATA[` stays pending, in the matching substate. */
  lemma {:induction false} CDataPrefixStaysPending(k: nat, cc: CharClasses)
    requires 1 <= k < |CDataKeyword|
    ensures Drive(CommentOrCDataOrDoctypeStarted, CDataKeyword[..k], cc) == Going(CDataStarted(CDataStage(k)))
    decreases k
  {
    if k == 1 {
      StayAfter([], CommentOrCDataOrDoctypeStarted, '[', cc);
      assert CDataKeyword[..1] == [] + ['['];
    } else {
      CDataPrefixStaysPending(k - 1, cc);
      assert CDataKeyword[..k] == CDataKeyword[..k - 1] + [CDataKeyword[k - 1]];
      StayAfter(CDataKeyword[..k - 1], CDataStarted(CDataStage(k - 1)), CDataKeyword[k - 1], cc);
    }
  }

  /** From `<!`, every proper non-empty prefix of `DOCTYPE` stays pending, in the matching substate. */
  lemma {:induction false} DoctypePrefixStaysPending(k: nat, cc: CharClasses)
    requires 1 <= k < |DoctypeKeyword|
    ensures Drive(CommentOrCDataOrDoctypeStarted, DoctypeKeyword[..k], cc) == Going(DoctypeStarted(DoctypeStage(k)))
    decreases k
  {
    if k == 1 {
      StayAfter([], CommentOrCDataOrDoctypeStarted, 'D', cc);
      assert DoctypeKeyword[..1] == [] + ['D'];
    } else {
      DoctypePrefixStaysPending(k - 1, cc);
      assert DoctypeKeyword[..k] == DoctypeKeyword[..k - 1] + [DoctypeKeyword[k - 1]];
      StayAfter(DoctypeKeyword[..k - 1], DoctypeStarted(DoctypeStage(k - 1)), DoctypeKeyword[k - 1], cc);
    }
  }

  /** In the substate after `k` characters of `[CDATA[`, any character but the next one is a mismatch. */
  lemma CDataStageMismatch(k: nat, c: char, cc: CharClasses)
    requires 1 <= k < |CDataKeyword| && c != CDataKeyword[k]
    ensures Transition(CDataStarted(CDataStage(k)), c, cc) == Mismatch("<!" + CDataKeyword[..k])
  {
  }

  /** In the substate after `k` characters of `DOCTYPE`, any character but the next one is a mismatch. */
  lemma DoctypeStageMismatch(k: nat, c: char, cc: CharClasses)
    requires 1 <= k < |DoctypeKeyword| && c != DoctypeKeyword[k]
    ensures Transition(DoctypeStarted(DoctypeStage(k)), c, cc) == Mismatch("<!" + DoctypeKeyword[..k])
  {
  }

  /** A character on which the state reached from `<!` mismatches reports `<!` and the word before it. */
  lemma MismatchAfter(p: seq<char>, st: State, c: char, cc: CharClasses)
    requires Drive(CommentOrCDataOrDoctypeStarted, p, cc) == Going(st)
    requires Transition(st, c, cc).Mismatch?
    ensures Drive(CommentOrCDataOrDoctypeStarted, p + [c], cc) == Stopped(|p|, Mismatch("<!" + p))
  {
    StopAfter(p, st, c, cc);
    DriveAccounts(CommentOrCDataOrDoctypeStarted, p + [c], cc);
    assert (p + [c])[..|p|] == p;
  }

  /** A token emitted at the end of a word driven from `<!` renders as `<!` and that word. */
  lemma EmittedAfterBang(w: seq<char>, t: Token, cc: CharClasses)
    requires |w| > 0
    requires Drive(CommentOrCDataOrDoctypeStarted, w, cc) == Stopped(|w| - 1, Emit(Normal, t))
    ensures Render(t) == "<!" + w
  {
    DriveAccounts(CommentOrCDataOrDoctypeStarted, w, cc);
    assert w[..|w|] == w;
  }

  /** From `<!`, the word `[CDATA[` stays pending until its last character emits CDataStart. */
  lemma CDataKeywordStarts(cc: CharClasses)
    ensures Drive(CommentOrCDataOrDoctypeStarted, CDataKeyword, cc)
            == Stopped(|CDataKeyword| - 1, Emit(Normal, CDataStart))
  {
    CDataPrefixStaysPending(6, cc);
    StopAfter(CDataKeyword[..6], CDataStarted(CDATA), CDataKeyword[6], cc);
    assert CDataKeyword[..6] + [CDataKeyword[6]] == CDataKeyword;
  }

  /** From `<!`, the word `DOCTYPE` stays pending until its last character emits DoctypeStart. */
  lemma DoctypeKeywordStarts(cc: CharClasses)
    ensures Drive(CommentOrCDataOrDoctypeStarted, DoctypeKeyword, cc)
            == Stopped(|DoctypeKeyword| - 1, Emit(Normal, DoctypeStart))
  {
    DoctypePrefixStaysPending(6, cc);
    StopAfter(DoctypeKeyword[..6], DoctypeStarted(DOCTYP), DoctypeKeyword[6], cc);
    assert DoctypeKeyword[..6] + [DoctypeKeyword[6]] == DoctypeKeyword;
  }

  /** From `<!`, CDataStart is emitted at the end of a word only if the word is `[CDATA[`. */
  lemma CDataStartOnlyAfterKeyword(w: seq<char>, cc: CharClasses)
    requires |w| > 0
    requires Drive(CommentOrCDataOrDoctypeStarted, w, cc) == Stopped(|w| - 1, Emit(Normal, CDataStart))
    ensures w == CDataKeyword
  {
    EmittedAfterBang(w, CDataStart, cc);
    assert w == ("<!" + w)[2..];
  }

  /** From `<!`, DoctypeStart is emitted at the end of a word only if the word is `DOCTYPE`. */
  lemma DoctypeStartOnlyAfterKeyword(w: seq<char>, cc: CharClasses)
    requires |w| > 0
    requires Drive(CommentOrCDataOrDoctypeStarted, w, cc) == Stopped(|w| - 1, Emit(Normal, DoctypeStart))
    ensures w == DoctypeKeyword
  {
    EmittedAfterBang(w, DoctypeStart, cc);
    assert w == ("<!" + w)[2..];
  }

  /**
   * After `<!`, a word ends in CDataStart, with every earlier character
   * pending, exactly when the word is `[CDATA[`.
   */
  lemma CDataStartExactly(w: seq<char>, cc: CharClasses)
    requires |w| > 0
    ensures Drive(CommentOrCDataOrDoctypeStarted, w, cc) == Stopped(|w| - 1, Emit(Normal, CDataStart))
            <==> w == CDataKeyword
  {
    if Drive(CommentOrCDataOrDoctypeStarted, w, cc) == Stopped(|w| - 1, Emit(Normal, CDataStart)) {
      CDataStartOnlyAfterKeyword(w, cc);
    }
    if w == CDataKeyword {
      CDataKeywordStarts(cc);
    }
  }

  /**
   * After `<!`, a word ends in DoctypeStart, with every earlier character
   * pending, exactly when the word is `DOCTYPE`.
   */
  lemma DoctypeStartExactly(w: seq<char>, cc: CharClasses)
    requires |w| > 0
    ensures Drive(CommentOrCDataOrDoctypeStarted, w, cc) == Stopped(|w| - 1, Emit(Normal, DoctypeStart))
            <==> w == DoctypeKeyword
  {
    if Drive(CommentOrCDataOrDoctypeStarted, w, cc) == Stopped(|w| - 1, Emit(Normal, DoctypeStart)) {
      DoctypeStartOnlyAfterKeyword(w, cc);
    }
    if w == DoctypeKeyword {
      DoctypeKeywordStarts(cc);
    }
  }

  /**
   * A character that breaks off `[CDATA[` after its first `k` characters is
   * a mismatch whose chunk is `<!` followed by those `k` characters.
   */
  lemma CDataMismatchChunk(k: nat, c: char, cc: CharClasses)
    requires k < |CDataKeyword| && c != CDataKeyword[k]
    requires k == 0 ==> c != '-' && c != 'D'
    ensures Drive(CommentOrCDataOrDoctypeStarted, CDataKeyword[..k] + [c], cc)
            == Stopped(k, Mismatch("<!" + CDataKeyword[..k]))
  {
    if k == 0 {
      assert CDataKeyword[..k] == [];
      MismatchAfter([], CommentOrCDataOrDoctypeStarted, c, cc);
    } else {
      CDataPrefixStaysPending(k, cc);
      CDataStageMismatch(k, c, cc);
      MismatchAfter(CDataKeyword[..k], CDataStarted(CDataStage(k)), c, cc);
    }
  }

  /**
   * A character that breaks off `DOCTYPE` after its first `k` characters is
   * a mismatch whose chunk is `<!` followed by those `k` characters.
   */
  lemma DoctypeMismatchChunk(k: nat, c: char, cc: CharClasses)
    requires k < |DoctypeKeyword| && c != DoctypeKeyword[k]
    requires k == 0 ==> c != '-' && c != '['
    ensures Drive(CommentOrCDataOrDoctypeStarted, DoctypeKeyword[..k] + [c], cc)
            == Stopped(k, Mismatch("<!" + DoctypeKeyword[..k]))
  {
    if k == 0 {
      assert DoctypeKeyword[..k] == [];
      MismatchAfter([], CommentOrCDataOrDoctypeStarted, c, cc);
    } else {
      DoctypePrefixStaysPending(k, cc);
      DoctypeStageMismatch(k, c, cc);
      MismatchAfter(DoctypeKeyword[..k], DoctypeStarted(DoctypeStage(k)), c, cc);
    }
  }
}
