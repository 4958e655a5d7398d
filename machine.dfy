/**
 * The lexer's state machine: the recognition modes of src/reader/lexer.rs,
 * the per-state transition functions and the dispatcher that routes a
 * character to them.
 */
module Machine {
  import opened Tokens

  datatype ClosingSubstate = First | Second

  /** Progress through `<!DOCTYPE`: the substate names the prefix after `<!`. */
  datatype DoctypeStartedSubstate = D | DO | DOC | DOCT | DOCTY | DOCTYP

  /** Progress through `<![CDATA[`: `E` is the empty prefix after `<![`. */
  datatype CDataStartedSubstate = E | C | CD | CDA | CDAT | CDATA

  datatype State =
    | TagOpened                                     // `<` seen
    | CommentOrCDataOrDoctypeStarted                // `<!` seen
    | CommentStarted                                // `<!-` seen
    | DoctypeStarted(ds: DoctypeStartedSubstate)    // `<!D` up to `<!DOCTYP`
    | CDataStarted(cs: CDataStartedSubstate)        // `<![` up to `<![CDATA`
    | ProcessingInstructionClosing                  // `?` seen
    | EmptyTagClosing                               // `/` seen
    | CommentClosing(dash: ClosingSubstate)         // `-` or `--` seen
    | CDataClosing(bracket: ClosingSubstate)        // `]` or `]]` seen
    | Normal

  /**
   * The two character classes the lexer borrows from the library's `common`
   * module. Their definitions are not part of this model, so every transition
   * takes them as a parameter and nothing is assumed about them.
   */
  datatype CharClasses = CharClasses(isWhitespace: char -> bool, isNameChar: char -> bool)

  /**
   * What a transition function asks the driver to do: `move_to`,
   * `move_to_with`, `move_to_with_unread` or `handle_error`.
   */
  datatype Outcome =
    | Stay(next: State)
    | Emit(next: State, tok: Token)
    | EmitUnread(next: State, tok: Token)
    | Mismatch(chunk: string)

  /** The characters consumed in state `st` since the last token was emitted. */
  function Pending(st: State): string
  {
    match st
    case Normal => ""
    case TagOpened => "<"
    case CommentOrCDataOrDoctypeStarted => "<!"
    case CommentStarted => "<!-"
    case CDataStarted(s) =>
      (match s
       case E => "<!["
       case C => "<![C"
       case CD => "<![CD"
       case CDA => "<![CDA"
       case CDAT => "<![CDAT"
       case CDATA => "<![CDATA")
    case DoctypeStarted(s) =>
      (match s
       case D => "<!D"
       case DO => "<!DO"
       case DOC => "<!DOC"
       case DOCT => "<!DOCT"
       case DOCTY => "<!DOCTY"
       case DOCTYP => "<!DOCTYP")
    case ProcessingInstructionClosing => "?"
    case EmptyTagClosing => "/"
    case CommentClosing(First) => "-"
    case CommentClosing(Second) => "--"
    case CDataClosing(First) => "]"
    case CDataClosing(Second) => "]]"
  }

  /** The states from which a character can be a mismatch. */
  predicate CanMismatch(st: State)
  {
    st.TagOpened? || st.CommentOrCDataOrDoctypeStarted? || st.CommentStarted?
    || st.CDataStarted? || st.DoctypeStarted?
  }

  /**
   * A transition on `c` in state `st` loses and invents no character: a state
   * that stays pending has consumed `c`; an emitted token's text is exactly
   * what was pending plus `c`, or, when `c` is pushed back, exactly what was
   * pending; a mismatch reports exactly what was pending. Every token is
   * emitted on the way back to Normal.
   */
  predicate Accounts(st: State, c: char, o: Outcome)
  {
    match o
    case Stay(s) => s != Normal && Pending(s) == Pending(st) + [c]
    case Emit(s, t) => s == Normal && Render(t) == Pending(st) + [c]
    case EmitUnread(s, t) => s == Normal && st != Normal && Render(t) == Pending(st)
    case Mismatch(chunk) => CanMismatch(st) && chunk == Pending(st)
  }

  /**
   * Encountered a character with nothing pending: the five markup lead-ins
   * wait for more, the six one-character markup tokens are emitted as the
   * fixed token for `c`, and anything else is a whitespace or a plain
   * character token.
   */
  function OnNormal(c: char, cc: CharClasses): (r: Outcome)
    ensures r.Stay? <==> c in "</?-]"
    ensures c in ">=\"'&;" ==> r.Emit? && AsStaticStr(r.tok) == Some([c])
    ensures r.Emit? && r.tok.Whitespace? <==> cc.isWhitespace(c) && c !in "<>/=\"'?-]&;"
    ensures r.Emit? && r.tok.Character? <==> !cc.isWhitespace(c) && c !in "<>/=\"'?-]&;"
    ensures r.Emit? && AsStaticStr(r.tok).None? ==> r.tok == Whitespace(c) || r.tok == Character(c)
  {
    match c
    case '<' => Stay(TagOpened)
    case '>' => Emit(Normal, TagEnd)
    case '/' => Stay(EmptyTagClosing)
    case '=' => Emit(Normal, EqualsSign)
    case '"' => Emit(Normal, DoubleQuote)
    case '\'' => Emit(Normal, SingleQuote)
    case '?' => Stay(ProcessingInstructionClosing)
    case '-' => Stay(CommentClosing(First))
    case ']' => Stay(CDataClosing(First))
    case '&' => Emit(Normal, ReferenceStart)
    case ';' => Emit(Normal, ReferenceEnd)
    case _ => if cc.isWhitespace(c) then Emit(Normal, Whitespace(c)) else Emit(Normal, Character(c))
  }

  /** Encountered `<`: `<?` and `</` are tokens, `<!` waits for more, a name or a space opens a tag. */
  function OnTagOpened(c: char, cc: CharClasses): (r: Outcome)
    ensures r.Mismatch? <==> !(c in "?/!" || cc.isWhitespace(c) || cc.isNameChar(c))
    ensures r.Emit? <==> c in "?/"
    ensures r.Emit? ==> AsStaticStr(r.tok) == Some(['<', c])
    ensures r.Stay? <==> c == '!'
    ensures r.EmitUnread? ==> r.tok == OpeningTagStart
  {
    match c
    case '?' => Emit(Normal, ProcessingInstructionStart)
    case '/' => Emit(Normal, ClosingTagStart)
    case '!' => Stay(CommentOrCDataOrDoctypeStarted)
    case _ =>
      if cc.isWhitespace(c) then EmitUnread(Normal, OpeningTagStart)
      else if cc.isNameChar(c) then EmitUnread(Normal, OpeningTagStart)
      else Mismatch("<")
  }

  /** Encountered `<!`. */
  function OnCommentOrCDataOrDoctypeStarted(c: char): (r: Outcome)
    ensures r.Mismatch? <==> c !in "-[D"
  {
    match c
    case '-' => Stay(CommentStarted)
    case '[' => Stay(CDataStarted(E))
    case 'D' => Stay(DoctypeStarted(D))
    case _ => Mismatch("<!")
  }

  /** Encountered `<!-`. */
  function OnCommentStarted(c: char): (r: Outcome)
    ensures !r.Mismatch? <==> c == '-'
    ensures !r.Mismatch? ==> r.Emit? && AsStaticStr(r.tok) == Some("<!--")
  {
    match c
    case '-' => Emit(Normal, CommentStart)
    case _ => Mismatch("<!-")
  }

  /** Encountered `<![` and possibly more of `CDATA`. */
  function OnCDataStarted(c: char, s: CDataStartedSubstate): (r: Outcome)
    ensures r.Emit? <==> s == CDATA && c == '['
    ensures r.Emit? ==> AsStaticStr(r.tok) == Some("<![CDATA[")
  {
    match s
    case E => if c == 'C' then Stay(CDataStarted(C)) else Mismatch("<![")
    case C => if c == 'D' then Stay(CDataStarted(CD)) else Mismatch("<![C")
    case CD => if c == 'A' then Stay(CDataStarted(CDA)) else Mismatch("<![CD")
    case CDA => if c == 'T' then Stay(CDataStarted(CDAT)) else Mismatch("<![CDA")
    case CDAT => if c == 'A' then Stay(CDataStarted(CDATA)) else Mismatch("<![CDAT")
    case CDATA => if c == '[' then Emit(Normal, CDataStart) else Mismatch("<![CDATA")
  }

  /** Encountered `<!D` and possibly more of `OCTYP`. */
  function OnDoctypeStarted(c: char, s: DoctypeStartedSubstate): (r: Outcome)
    ensures r.Emit? <==> s == DOCTYP && c == 'E'
    ensures r.Emit? ==> AsStaticStr(r.tok) == Some("<!DOCTYPE")
  {
    match s
    case D => if c == 'O' then Stay(DoctypeStarted(DO)) else Mismatch("<!D")
    case DO => if c == 'C' then Stay(DoctypeStarted(DOC)) else Mismatch("<!DO")
    case DOC => if c == 'T' then Stay(DoctypeStarted(DOCT)) else Mismatch("<!DOC")
    case DOCT => if c == 'Y' then Stay(DoctypeStarted(DOCTY)) else Mismatch("<!DOCT")
    case DOCTY => if c == 'P' then Stay(DoctypeStarted(DOCTYP)) else Mismatch("<!DOCTY")
    case DOCTYP => if c == 'E' then Emit(Normal, DoctypeStart) else Mismatch("<!DOCTYP")
  }

  /** Encountered `?`. */
  function OnProcessingInstructionClosing(c: char): (r: Outcome)
    ensures r.Emit? <==> c == '>'
    ensures r.Emit? ==> AsStaticStr(r.tok) == Some("?>")
    ensures !r.Emit? ==> r == EmitUnread(Normal, Character('?'))
  {
    match c
    case '>' => Emit(Normal, ProcessingInstructionEnd)
    case _ => EmitUnread(Normal, Character('?'))
  }

  /** Encountered `/`. */
  function OnEmptyElementClosing(c: char): (r: Outcome)
    ensures r.Emit? <==> c == '>'
    ensures r.Emit? ==> AsStaticStr(r.tok) == Some("/>")
    ensures !r.Emit? ==> r == EmitUnread(Normal, Character('/'))
  {
    match c
    case '>' => Emit(Normal, EmptyTagEnd)
    case _ => EmitUnread(Normal, Character('/'))
  }

  /** Encountered `-` or `--`. */
  function OnCommentClosing(c: char, s: ClosingSubstate): (r: Outcome)
    ensures r.Emit? <==> s == Second && c == '>'
    ensures r.Emit? ==> AsStaticStr(r.tok) == Some("-->")
    ensures r.Stay? <==> s == First && c == '-'
    ensures r.EmitUnread? ==> r.tok == (if s == First then Character('-') else Chunk("--"))
  {
    match s
    case First => if c == '-' then Stay(CommentClosing(Second)) else EmitUnread(Normal, Character('-'))
    case Second => if c == '>' then Emit(Normal, CommentEnd) else EmitUnread(Normal, Chunk("--"))
  }

  /** Encountered `]` or `]]`. */
  function OnCDataClosing(c: char, s: ClosingSubstate): (r: Outcome)
    ensures r.Emit? <==> s == Second && c == '>'
    ensures r.Emit? ==> AsStaticStr(r.tok) == Some("]]>")
    ensures r.Stay? <==> s == First && c == ']'
    ensures r.EmitUnread? ==> r.tok == (if s == First then Character(']') else Chunk("]]"))
  {
    match s
    case First => if c == ']' then Stay(CDataClosing(Second)) else EmitUnread(Normal, Character(']'))
    case Second => if c == '>' then Emit(Normal, CDataEnd) else EmitUnread(Normal, Chunk("]]"))
  }

  /** Routes a character to the transition function of the current state (`dispatch_char`). */
  function Transition(st: State, c: char, cc: CharClasses): (r: Outcome)
    ensures r.Mismatch? ==> CanMismatch(st)
  {
    match st
    case Normal => OnNormal(c, cc)
    case TagOpened => OnTagOpened(c, cc)
    case CommentOrCDataOrDoctypeStarted => OnCommentOrCDataOrDoctypeStarted(c)
    case CommentStarted => OnCommentStarted(c)
    case CDataStarted(s) => OnCDataStarted(c, s)
    case DoctypeStarted(s) => OnDoctypeStarted(c, s)
    case ProcessingInstructionClosing => OnProcessingInstructionClosing(c)
    case EmptyTagClosing => OnEmptyElementClosing(c)
    case CommentClosing(s) => OnCommentClosing(c, s)
    case CDataClosing(s) => OnCDataClosing(c, s)
  }

  /** Every transition is a lossless step: it accounts for the pending text and the character. */
  lemma TransitionAccounts(st: State, c: char, cc: CharClasses)
    ensures Accounts(st, c, Transition(st, c, cc))
  {
    match st
    case Normal => NormalAccounts(c, cc);
    case TagOpened => TagOpenedAccounts(c, cc);
    case CommentOrCDataOrDoctypeStarted => BangAccounts(c);
    case CommentStarted => CommentStartedAccounts(c);
    case CDataStarted(s) => CDataStartedAccounts(c, s);
    case DoctypeStarted(s) => DoctypeStartedAccounts(c, s);
    case ProcessingInstructionClosing => ClosingAccounts(st, c, cc);
    case EmptyTagClosing => ClosingAccounts(st, c, cc);
    case CommentClosing(s) => ClosingAccounts(st, c, cc);
    case CDataClosing(s) => ClosingAccounts(st, c, cc);
  }

  /** `normal` is a lossless step. */
  lemma NormalAccounts(c: char, cc: CharClasses)
    ensures Accounts(Normal, c, OnNormal(c, cc))
  {
  }

  /** `tag_opened` is a lossless step. */
  lemma TagOpenedAccounts(c: char, cc: CharClasses)
    ensures Accounts(TagOpened, c, OnTagOpened(c, cc))
  {
  }

  /** `comment_or_cdata_or_doctype_started` is a lossless step. */
  lemma BangAccounts(c: char)
    ensures Accounts(CommentOrCDataOrDoctypeStarted, c, OnCommentOrCDataOrDoctypeStarted(c))
  {
  }

  /** `comment_started` is a lossless step. */
  lemma CommentStartedAccounts(c: char)
    ensures Accounts(CommentStarted, c, OnCommentStarted(c))
  {
  }

  /** `cdata_started` is a lossless step in every substate. */
  lemma CDataStartedAccounts(c: char, s: CDataStartedSubstate)
    ensures Accounts(CDataStarted(s), c, OnCDataStarted(c, s))
  {
  }

  /** `doctype_started` is a lossless step in every substate. */
  lemma DoctypeStartedAccounts(c: char, s: DoctypeStartedSubstate)
    ensures Accounts(DoctypeStarted(s), c, OnDoctypeStarted(c, s))
  {
  }

  /**
   * The closing handlers (`processing_instruction_closing`,
   * `empty_element_closing`, `comment_closing`, `cdata_closing`) are lossless
   * steps.
   */
  lemma ClosingAccounts(st: State, c: char, cc: CharClasses)
    requires st.ProcessingInstructionClosing? || st.EmptyTagClosing? || st.CommentClosing? || st.CDataClosing?
    ensures Accounts(st, c, Transition(st, c, cc))
  {
  }

  /** How far a run of transitions over a word gets. */
  datatype Progress = Going(st: State) | Stopped(at: nat, outcome: Outcome)

  /**
   * Feeds the word `w` to the state machine from `st` while it stays pending,
   * and reports the first outcome that is not Stay with its position in `w`.
   */
  function Drive(st: State, w: seq<char>, cc: CharClasses): (p: Progress)
    ensures p.Stopped? ==> p.at < |w| && !p.outcome.Stay?
    decreases |w|
  {
    if w == [] then Going(st)
    else
      match Transition(st, w[0], cc)
      case Stay(s) =>
        (match Drive(s, w[1..], cc)
         case Going(s') => Going(s')
         case Stopped(i, o) => Stopped(i + 1, o))
      case o => Stopped(0, o)
  }
}
