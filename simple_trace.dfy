/**
 * `simple_lexer_test` at the end of src/reader/lexer.rs, replayed one
 * `next_token` call at a time: a small document with tags, attributes, a
 * processing instruction, a comment and a reference comes back as its 52
 * tokens and then nothing. As in the other replays, each lemma requires only
 * the facts about the character classes that its part of the input needs.
 */
module SimpleTrace {
  import opened Tokens
  import opened Machine
  import opened Driver
  import opened Traces

  /**
   * The input of `simple_lexer_test`; a tab follows the `d`. It is written in
   * pieces of at most thirteen characters, so that finding the character at a
   * position does not walk the whole literal.
   */
  const SimpleText := "<a p='q'> x" + "<b z=\"y\">d\t" + "</b></a>" + "<p/> <?nm ?> " + "<!-- a c --> " + "&nbsp;"

  /** Call 1 of `simple_lexer_test` reads `<a` and returns `OpeningTagStart`, holding `a` back. */
  lemma SimpleCall1(cc: CharClasses)
    requires cc.isNameChar('a')
    ensures NextTokenSpec(New(), SimpleText, 0, cc) == Call(Some(Ok(OpeningTagStart)), At(2, Some('a'), Normal), 2)
  {
    ReadPair(0, Normal, SimpleText, 0, '<', TagOpened, 'a', EmitUnread(Normal, OpeningTagStart), cc);
  }

  /** Call 2 of `simple_lexer_test` takes back the held `a` and returns `Character('a')`. */
  lemma SimpleCall2(cc: CharClasses)
    requires !cc.isWhitespace('a')
    ensures NextTokenSpec(At(2, Some('a'), Normal), SimpleText, 2, cc) == Call(Some(Ok(Character('a'))), At(3, None, Normal), 2)
  {
    HeldEmits(2, 'a', SimpleText, 2, Character('a'), cc);
  }

  /** Call 3 of `simple_lexer_test` reads a space and returns `Whitespace(' ')`. */
  lemma SimpleCall3(cc: CharClasses)
    requires cc.isWhitespace(' ')
    ensures NextTokenSpec(At(3, None, Normal), SimpleText, 2, cc) == Call(Some(Ok(Whitespace(' '))), At(4, None, Normal), 3)
  {
    ReadOne(3, Normal, SimpleText, 2, ' ', Emit(Normal, Whitespace(' ')), cc);
  }

  /** Call 4 of `simple_lexer_test` reads `p` and returns `Character('p')`. */
  lemma SimpleCall4(cc: CharClasses)
    requires !cc.isWhitespace('p')
    ensures NextTokenSpec(At(4, None, Normal), SimpleText, 3, cc) == Call(Some(Ok(Character('p'))), At(5, None, Normal), 4)
  {
    ReadOne(4, Normal, SimpleText, 3, 'p', Emit(Normal, Character('p')), cc);
  }

  /** Call 5 of `simple_lexer_test` reads `=` and returns `EqualsSign`. */
  lemma SimpleCall5(cc: CharClasses)
    ensures NextTokenSpec(At(5, None, Normal), SimpleText, 4, cc) == Call(Some(Ok(EqualsSign)), At(6, None, Normal), 5)
  {
    ReadOne(5, Normal, SimpleText, 4, '=', Emit(Normal, EqualsSign), cc);
  }

  /** Call 6 of `simple_lexer_test` reads `'` and returns `SingleQuote`. */
  lemma SimpleCall6(cc: CharClasses)
    ensures NextTokenSpec(At(6, None, Normal), SimpleText, 5, cc) == Call(Some(Ok(SingleQuote)), At(7, None, Normal), 6)
  {
    ReadOne(6, Normal, SimpleText, 5, '\'', Emit(Normal, SingleQuote), cc);
  }

  /** Call 7 of `simple_lexer_test` reads `q` and returns `Character('q')`. */
  lemma SimpleCall7(cc: CharClasses)
    requires !cc.isWhitespace('q')
    ensures NextTokenSpec(At(7, None, Normal), SimpleText, 6, cc) == Call(Some(Ok(Character('q'))), At(8, None, Normal), 7)
  {
    ReadOne(7, Normal, SimpleText, 6, 'q', Emit(Normal, Character('q')), cc);
  }

  /** Call 8 of `simple_lexer_test` reads `'` and returns `SingleQuote`. */
  lemma SimpleCall8(cc: CharClasses)
    ensures NextTokenSpec(At(8, None, Normal), SimpleText, 7, cc) == Call(Some(Ok(SingleQuote)), At(9, None, Normal), 8)
  {
    ReadOne(8, Normal, SimpleText, 7, '\'', Emit(Normal, SingleQuote), cc);
  }

  /** Call 9 of `simple_lexer_test` reads `>` and returns `TagEnd`. */
  lemma SimpleCall9(cc: CharClasses)
    ensures NextTokenSpec(At(9, None, Normal), SimpleText, 8, cc) == Call(Some(Ok(TagEnd)), At(10, None, Normal), 9)
  {
    ReadOne(9, Normal, SimpleText, 8, '>', Emit(Normal, TagEnd), cc);
  }

  /** Call 10 of `simple_lexer_test` reads a space and returns `Whitespace(' ')`. */
  lemma SimpleCall10(cc: CharClasses)
    requires cc.isWhitespace(' ')
    ensures NextTokenSpec(At(10, None, Normal), SimpleText, 9, cc) == Call(Some(Ok(Whitespace(' '))), At(11, None, Normal), 10)
  {
    ReadOne(10, Normal, SimpleText, 9, ' ', Emit(Normal, Whitespace(' ')), cc);
  }

  /** Call 11 of `simple_lexer_test` reads `x` and returns `Character('x')`. */
  lemma SimpleCall11(cc: CharClasses)
    requires !cc.isWhitespace('x')
    ensures NextTokenSpec(At(11, None, Normal), SimpleText, 10, cc) == Call(Some(Ok(Character('x'))), At(12, None, Normal), 11)
  {
    ReadOne(11, Normal, SimpleText, 10, 'x', Emit(Normal, Character('x')), cc);
  }

  /** Call 12 of `simple_lexer_test` reads `<b` and returns `OpeningTagStart`, holding `b` back. */
  lemma SimpleCall12(cc: CharClasses)
    requires cc.isNameChar('b')
    ensures NextTokenSpec(At(12, None, Normal), SimpleText, 11, cc) == Call(Some(Ok(OpeningTagStart)), At(14, Some('b'), Normal), 13)
  {
    ReadPair(12, Normal, SimpleText, 11, '<', TagOpened, 'b', EmitUnread(Normal, OpeningTagStart), cc);
  }

  /** Call 13 of `simple_lexer_test` takes back the held `b` and returns `Character('b')`. */
  lemma SimpleCall13(cc: CharClasses)
    requires !cc.isWhitespace('b')
    ensures NextTokenSpec(At(14, Some('b'), Normal), SimpleText, 13, cc) == Call(Some(Ok(Character('b'))), At(15, None, Normal), 13)
  {
    HeldEmits(14, 'b', SimpleText, 13, Character('b'), cc);
  }

  /** Call 14 of `simple_lexer_test` reads a space and returns `Whitespace(' ')`. */
  lemma SimpleCall14(cc: CharClasses)
    requires cc.isWhitespace(' ')
    ensures NextTokenSpec(At(15, None, Normal), SimpleText, 13, cc) == Call(Some(Ok(Whitespace(' '))), At(16, None, Normal), 14)
  {
    ReadOne(15, Normal, SimpleText, 13, ' ', Emit(Normal, Whitespace(' ')), cc);
  }

  /** Call 15 of `simple_lexer_test` reads `z` and returns `Character('z')`. */
  lemma SimpleCall15(cc: CharClasses)
    requires !cc.isWhitespace('z')
    ensures NextTokenSpec(At(16, None, Normal), SimpleText, 14, cc) == Call(Some(Ok(Character('z'))), At(17, None, Normal), 15)
  {
    ReadOne(16, Normal, SimpleText, 14, 'z', Emit(Normal, Character('z')), cc);
  }

  /** Call 16 of `simple_lexer_test` reads `=` and returns `EqualsSign`. */
  lemma SimpleCall16(cc: CharClasses)
    ensures NextTokenSpec(At(17, None, Normal), SimpleText, 15, cc) == Call(Some(Ok(EqualsSign)), At(18, None, Normal), 16)
  {
    ReadOne(17, Normal, SimpleText, 15, '=', Emit(Normal, EqualsSign), cc);
  }

  /** Call 17 of `simple_lexer_test` reads `"` and returns `DoubleQuote`. */
  lemma SimpleCall17(cc: CharClasses)
    ensures NextTokenSpec(At(18, None, Normal), SimpleText, 16, cc) == Call(Some(Ok(DoubleQuote)), At(19, None, Normal), 17)
  {
    ReadOne(18, Normal, SimpleText, 16, '"', Emit(Normal, DoubleQuote), cc);
  }

  /** Call 18 of `simple_lexer_test` reads `y` and returns `Character('y')`. */
  lemma SimpleCall18(cc: CharClasses)
    requires !cc.isWhitespace('y')
    ensures NextTokenSpec(At(19, None, Normal), SimpleText, 17, cc) == Call(Some(Ok(Character('y'))), At(20, None, Normal), 18)
  {
    ReadOne(19, Normal, SimpleText, 17, 'y', Emit(Normal, Character('y')), cc);
  }

  /** Call 19 of `simple_lexer_test` reads `"` and returns `DoubleQuote`. */
  lemma SimpleCall19(cc: CharClasses)
    ensures NextTokenSpec(At(20, None, Normal), SimpleText, 18, cc) == Call(Some(Ok(DoubleQuote)), At(21, None, Normal), 19)
  {
    ReadOne(20, Normal, SimpleText, 18, '"', Emit(Normal, DoubleQuote), cc);
  }

  /** Call 20 of `simple_lexer_test` reads `>` and returns `TagEnd`. */
  lemma SimpleCall20(cc: CharClasses)
    ensures NextTokenSpec(At(21, None, Normal), SimpleText, 19, cc) == Call(Some(Ok(TagEnd)), At(22, None, Normal), 20)
  {
    ReadOne(21, Normal, SimpleText, 19, '>', Emit(Normal, TagEnd), cc);
  }

  /** Call 21 of `simple_lexer_test` reads `d` and returns `Character('d')`. */
  lemma SimpleCall21(cc: CharClasses)
    requires !cc.isWhitespace('d')
    ensures NextTokenSpec(At(22, None, Normal), SimpleText, 20, cc) == Call(Some(Ok(Character('d'))), At(23, None, Normal), 21)
  {
    ReadOne(22, Normal, SimpleText, 20, 'd', Emit(Normal, Character('d')), cc);
  }

  /** Call 22 of `simple_lexer_test` reads a tab and returns `Whitespace('\t')`. */
  lemma SimpleCall22(cc: CharClasses)
    requires cc.isWhitespace('\t')
    ensures NextTokenSpec(At(23, None, Normal), SimpleText, 21, cc) == Call(Some(Ok(Whitespace('\t'))), At(24, None, Normal), 22)
  {
    ReadOne(23, Normal, SimpleText, 21, '\t', Emit(Normal, Whitespace('\t')), cc);
  }

  /** Call 23 of `simple_lexer_test` reads `</` and returns `ClosingTagStart`. */
  lemma SimpleCall23(cc: CharClasses)
    ensures NextTokenSpec(At(24, None, Normal), SimpleText, 22, cc) == Call(Some(Ok(ClosingTagStart)), At(26, None, Normal), 24)
  {
    ReadPair(24, Normal, SimpleText, 22, '<', TagOpened, '/', Emit(Normal, ClosingTagStart), cc);
  }

  /** Call 24 of `simple_lexer_test` reads `b` and returns `Character('b')`. */
  lemma SimpleCall24(cc: CharClasses)
    requires !cc.isWhitespace('b')
    ensures NextTokenSpec(At(26, None, Normal), SimpleText, 24, cc) == Call(Some(Ok(Character('b'))), At(27, None, Normal), 25)
  {
    ReadOne(26, Normal, SimpleText, 24, 'b', Emit(Normal, Character('b')), cc);
  }

  /** Call 25 of `simple_lexer_test` reads `>` and returns `TagEnd`. */
  lemma SimpleCall25(cc: CharClasses)
    ensures NextTokenSpec(At(27, None, Normal), SimpleText, 25, cc) == Call(Some(Ok(TagEnd)), At(28, None, Normal), 26)
  {
    ReadOne(27, Normal, SimpleText, 25, '>', Emit(Normal, TagEnd), cc);
  }

  /** Call 26 of `simple_lexer_test` reads `</` and returns `ClosingTagStart`. */
  lemma SimpleCall26(cc: CharClasses)
    ensures NextTokenSpec(At(28, None, Normal), SimpleText, 26, cc) == Call(Some(Ok(ClosingTagStart)), At(30, None, Normal), 28)
  {
    ReadPair(28, Normal, SimpleText, 26, '<', TagOpened, '/', Emit(Normal, ClosingTagStart), cc);
  }

  /** Call 27 of `simple_lexer_test` reads `a` and returns `Character('a')`. */
  lemma SimpleCall27(cc: CharClasses)
    requires !cc.isWhitespace('a')
    ensures NextTokenSpec(At(30, None, Normal), SimpleText, 28, cc) == Call(Some(Ok(Character('a'))), At(31, None, Normal), 29)
  {
    ReadOne(30, Normal, SimpleText, 28, 'a', Emit(Normal, Character('a')), cc);
  }

  /** Call 28 of `simple_lexer_test` reads `>` and returns `TagEnd`. */
  lemma SimpleCall28(cc: CharClasses)
    ensures NextTokenSpec(At(31, None, Normal), SimpleText, 29, cc) == Call(Some(Ok(TagEnd)), At(32, None, Normal), 30)
  {
    ReadOne(31, Normal, SimpleText, 29, '>', Emit(Normal, TagEnd), cc);
  }

  /** Call 29 of `simple_lexer_test` reads `<p` and returns `OpeningTagStart`, holding `p` back. */
  lemma SimpleCall29(cc: CharClasses)
    requires cc.isNameChar('p')
    ensures NextTokenSpec(At(32, None, Normal), SimpleText, 30, cc) == Call(Some(Ok(OpeningTagStart)), At(34, Some('p'), Normal), 32)
  {
    ReadPair(32, Normal, SimpleText, 30, '<', TagOpened, 'p', EmitUnread(Normal, OpeningTagStart), cc);
  }

  /** Call 30 of `simple_lexer_test` takes back the held `p` and returns `Character('p')`. */
  lemma SimpleCall30(cc: CharClasses)
    requires !cc.isWhitespace('p')
    ensures NextTokenSpec(At(34, Some('p'), Normal), SimpleText, 32, cc) == Call(Some(Ok(Character('p'))), At(35, None, Normal), 32)
  {
    HeldEmits(34, 'p', SimpleText, 32, Character('p'), cc);
  }

  /** Call 31 of `simple_lexer_test` reads `/>` and returns `EmptyTagEnd`. */
  lemma SimpleCall31(cc: CharClasses)
    ensures NextTokenSpec(At(35, None, Normal), SimpleText, 32, cc) == Call(Some(Ok(EmptyTagEnd)), At(37, None, Normal), 34)
  {
    ReadPair(35, Normal, SimpleText, 32, '/', EmptyTagClosing, '>', Emit(Normal, EmptyTagEnd), cc);
  }

  /** Call 32 of `simple_lexer_test` reads a space and returns `Whitespace(' ')`. */
  lemma SimpleCall32(cc: CharClasses)
    requires cc.isWhitespace(' ')
    ensures NextTokenSpec(At(37, None, Normal), SimpleText, 34, cc) == Call(Some(Ok(Whitespace(' '))), At(38, None, Normal), 35)
  {
    ReadOne(37, Normal, SimpleText, 34, ' ', Emit(Normal, Whitespace(' ')), cc);
  }

  /** Call 33 of `simple_lexer_test` reads `<?` and returns `ProcessingInstructionStart`. */
  lemma SimpleCall33(cc: CharClasses)
    ensures NextTokenSpec(At(38, None, Normal), SimpleText, 35, cc) == Call(Some(Ok(ProcessingInstructionStart)), At(40, None, Normal), 37)
  {
    ReadPair(38, Normal, SimpleText, 35, '<', TagOpened, '?', Emit(Normal, ProcessingInstructionStart), cc);
  }

  /** Call 34 of `simple_lexer_test` reads `n` and returns `Character('n')`. */
  lemma SimpleCall34(cc: CharClasses)
    requires !cc.isWhitespace('n')
    ensures NextTokenSpec(At(40, None, Normal), SimpleText, 37, cc) == Call(Some(Ok(Character('n'))), At(41, None, Normal), 38)
  {
    ReadOne(40, Normal, SimpleText, 37, 'n', Emit(Normal, Character('n')), cc);
  }

  /** Call 35 of `simple_lexer_test` reads `m` and returns `Character('m')`. */
  lemma SimpleCall35(cc: CharClasses)
    requires !cc.isWhitespace('m')
    ensures NextTokenSpec(At(41, None, Normal), SimpleText, 38, cc) == Call(Some(Ok(Character('m'))), At(42, None, Normal), 39)
  {
    ReadOne(41, Normal, SimpleText, 38, 'm', Emit(Normal, Character('m')), cc);
  }

  /** Call 36 of `simple_lexer_test` reads a space and returns `Whitespace(' ')`. */
  lemma SimpleCall36(cc: CharClasses)
    requires cc.isWhitespace(' ')
    ensures NextTokenSpec(At(42, None, Normal), SimpleText, 39, cc) == Call(Some(Ok(Whitespace(' '))), At(43, None, Normal), 40)
  {
    ReadOne(42, Normal, SimpleText, 39, ' ', Emit(Normal, Whitespace(' ')), cc);
  }

  /** Call 37 of `simple_lexer_test` reads `?>` and returns `ProcessingInstructionEnd`. */
  lemma SimpleCall37(cc: CharClasses)
    ensures NextTokenSpec(At(43, None, Normal), SimpleText, 40, cc) == Call(Some(Ok(ProcessingInstructionEnd)), At(45, None, Normal), 42)
  {
    ReadPair(43, Normal, SimpleText, 40, '?', ProcessingInstructionClosing, '>', Emit(Normal, ProcessingInstructionEnd), cc);
  }

  /** Call 38 of `simple_lexer_test` reads a space and returns `Whitespace(' ')`. */
  lemma SimpleCall38(cc: CharClasses)
    requires cc.isWhitespace(' ')
    ensures NextTokenSpec(At(45, None, Normal), SimpleText, 42, cc) == Call(Some(Ok(Whitespace(' '))), At(46, None, Normal), 43)
  {
    ReadOne(45, Normal, SimpleText, 42, ' ', Emit(Normal, Whitespace(' ')), cc);
  }

  /** Call 39 of `simple_lexer_test` reads `<!--` and returns `CommentStart`. */
  lemma SimpleCall39(cc: CharClasses)
    ensures NextTokenSpec(At(46, None, Normal), SimpleText, 43, cc) == Call(Some(Ok(CommentStart)), At(50, None, Normal), 47)
  {
    ReadQuad(46, Normal, SimpleText, 43, '<', TagOpened, '!', CommentOrCDataOrDoctypeStarted, '-', CommentStarted, '-', Emit(Normal, CommentStart), cc);
  }

  /** Call 40 of `simple_lexer_test` reads a space and returns `Whitespace(' ')`. */
  lemma SimpleCall40(cc: CharClasses)
    requires cc.isWhitespace(' ')
    ensures NextTokenSpec(At(50, None, Normal), SimpleText, 47, cc) == Call(Some(Ok(Whitespace(' '))), At(51, None, Normal), 48)
  {
    ReadOne(50, Normal, SimpleText, 47, ' ', Emit(Normal, Whitespace(' ')), cc);
  }

  /** Call 41 of `simple_lexer_test` reads `a` and returns `Character('a')`. */
  lemma SimpleCall41(cc: CharClasses)
    requires !cc.isWhitespace('a')
    ensures NextTokenSpec(At(51, None, Normal), SimpleText, 48, cc) == Call(Some(Ok(Character('a'))), At(52, None, Normal), 49)
  {
    ReadOne(51, Normal, SimpleText, 48, 'a', Emit(Normal, Character('a')), cc);
  }

  /** Call 42 of `simple_lexer_test` reads a space and returns `Whitespace(' ')`. */
  lemma SimpleCall42(cc: CharClasses)
    requires cc.isWhitespace(' ')
    ensures NextTokenSpec(At(52, None, Normal), SimpleText, 49, cc) == Call(Some(Ok(Whitespace(' '))), At(53, None, Normal), 50)
  {
    ReadOne(52, Normal, SimpleText, 49, ' ', Emit(Normal, Whitespace(' ')), cc);
  }

  /** Call 43 of `simple_lexer_test` reads `c` and returns `Character('c')`. */
  lemma SimpleCall43(cc: CharClasses)
    requires !cc.isWhitespace('c')
    ensures NextTokenSpec(At(53, None, Normal), SimpleText, 50, cc) == Call(Some(Ok(Character('c'))), At(54, None, Normal), 51)
  {
    ReadOne(53, Normal, SimpleText, 50, 'c', Emit(Normal, Character('c')), cc);
  }

  /** Call 44 of `simple_lexer_test` reads a space and returns `Whitespace(' ')`. */
  lemma SimpleCall44(cc: CharClasses)
    requires cc.isWhitespace(' ')
    ensures NextTokenSpec(At(54, None, Normal), SimpleText, 51, cc) == Call(Some(Ok(Whitespace(' '))), At(55, None, Normal), 52)
  {
    ReadOne(54, Normal, SimpleText, 51, ' ', Emit(Normal, Whitespace(' ')), cc);
  }

  /** Call 45 of `simple_lexer_test` reads `-->` and returns `CommentEnd`. */
  lemma SimpleCall45(cc: CharClasses)
    ensures NextTokenSpec(At(55, None, Normal), SimpleText, 52, cc) == Call(Some(Ok(CommentEnd)), At(58, None, Normal), 55)
  {
    ReadTriple(55, Normal, SimpleText, 52, '-', CommentClosing(First), '-', CommentClosing(Second), '>', Emit(Normal, CommentEnd), cc);
  }

  /** Call 46 of `simple_lexer_test` reads a space and returns `Whitespace(' ')`. */
  lemma SimpleCall46(cc: CharClasses)
    requires cc.isWhitespace(' ')
    ensures NextTokenSpec(At(58, None, Normal), SimpleText, 55, cc) == Call(Some(Ok(Whitespace(' '))), At(59, None, Normal), 56)
  {
    ReadOne(58, Normal, SimpleText, 55, ' ', Emit(Normal, Whitespace(' ')), cc);
  }

  /** Call 47 of `simple_lexer_test` reads `&` and returns `ReferenceStart`. */
  lemma SimpleCall47(cc: CharClasses)
    ensures NextTokenSpec(At(59, None, Normal), SimpleText, 56, cc) == Call(Some(Ok(ReferenceStart)), At(60, None, Normal), 57)
  {
    ReadOne(59, Normal, SimpleText, 56, '&', Emit(Normal, ReferenceStart), cc);
  }

  /** Call 48 of `simple_lexer_test` reads `n` and returns `Character('n')`. */
  lemma SimpleCall48(cc: CharClasses)
    requires !cc.isWhitespace('n')
    ensures NextTokenSpec(At(60, None, Normal), SimpleText, 57, cc) == Call(Some(Ok(Character('n'))), At(61, None, Normal), 58)
  {
    ReadOne(60, Normal, SimpleText, 57, 'n', Emit(Normal, Character('n')), cc);
  }

  /** Call 49 of `simple_lexer_test` reads `b` and returns `Character('b')`. */
  lemma SimpleCall49(cc: CharClasses)
    requires !cc.isWhitespace('b')
    ensures NextTokenSpec(At(61, None, Normal), SimpleText, 58, cc) == Call(Some(Ok(Character('b'))), At(62, None, Normal), 59)
  {
    ReadOne(61, Normal, SimpleText, 58, 'b', Emit(Normal, Character('b')), cc);
  }

  /** Call 50 of `simple_lexer_test` reads `s` and returns `Character('s')`. */
  lemma SimpleCall50(cc: CharClasses)
    requires !cc.isWhitespace('s')
    ensures NextTokenSpec(At(62, None, Normal), SimpleText, 59, cc) == Call(Some(Ok(Character('s'))), At(63, None, Normal), 60)
  {
    ReadOne(62, Normal, SimpleText, 59, 's', Emit(Normal, Character('s')), cc);
  }

  /** Call 51 of `simple_lexer_test` reads `p` and returns `Character('p')`. */
  lemma SimpleCall51(cc: CharClasses)
    requires !cc.isWhitespace('p')
    ensures NextTokenSpec(At(63, None, Normal), SimpleText, 60, cc) == Call(Some(Ok(Character('p'))), At(64, None, Normal), 61)
  {
    ReadOne(63, Normal, SimpleText, 60, 'p', Emit(Normal, Character('p')), cc);
  }

  /** Call 52 of `simple_lexer_test` reads `;` and returns `ReferenceEnd`. */
  lemma SimpleCall52(cc: CharClasses)
    ensures NextTokenSpec(At(64, None, Normal), SimpleText, 61, cc) == Call(Some(Ok(ReferenceEnd)), At(65, None, Normal), 62)
  {
    ReadOne(64, Normal, SimpleText, 61, ';', Emit(Normal, ReferenceEnd), cc);
  }

  /** Call 53 of `simple_lexer_test` reads nothing and returns nothing, the stream having ended. */
  lemma SimpleCall53(cc: CharClasses)
    ensures NextTokenSpec(At(65, None, Normal), SimpleText, 62, cc) == Call(None, At(65, None, Normal).(eofHandled := true), 62)
  {
    ReadToEnd(65, Normal, SimpleText, 62, Normal, cc);
  }

  /** Calls 1 to 5 of `simple_lexer_test`. */
  lemma SimpleReplays1(cc: CharClasses)
    requires cc.isWhitespace(' ') && !cc.isWhitespace('a') && !cc.isWhitespace('p') && cc.isNameChar('a')
    ensures Replays(Step(SimpleText, cc), New(), 0,
                    [Some(Ok(OpeningTagStart)), Some(Ok(Character('a'))), Some(Ok(Whitespace(' '))), Some(Ok(Character('p'))),
                     Some(Ok(EqualsSign))],
                    [(At(2, Some('a'), Normal), 2), (At(3, None, Normal), 2), (At(4, None, Normal), 3),
                     (At(5, None, Normal), 4), (At(6, None, Normal), 5)])
  {
    SimpleCall1(cc);
    SimpleCall2(cc);
    SimpleCall3(cc);
    SimpleCall4(cc);
    SimpleCall5(cc);
    ReplaysCons(Step(SimpleText, cc), At(5, None, Normal), 4, Some(Ok(EqualsSign)), (At(6, None, Normal), 5),
      [],
      []);
    ReplaysCons(Step(SimpleText, cc), At(4, None, Normal), 3, Some(Ok(Character('p'))), (At(5, None, Normal), 4),
      [Some(Ok(EqualsSign))],
      [(At(6, None, Normal), 5)]);
    ReplaysCons(Step(SimpleText, cc), At(3, None, Normal), 2, Some(Ok(Whitespace(' '))), (At(4, None, Normal), 3),
      [Some(Ok(Character('p'))), Some(Ok(EqualsSign))],
      [(At(5, None, Normal), 4), (At(6, None, Normal), 5)]);
    ReplaysCons(Step(SimpleText, cc), At(2, Some('a'), Normal), 2, Some(Ok(Character('a'))), (At(3, None, Normal), 2),
      [Some(Ok(Whitespace(' '))), Some(Ok(Character('p'))), Some(Ok(EqualsSign))],
      [(At(4, None, Normal), 3), (At(5, None, Normal), 4), (At(6, None, Normal), 5)]);
    ReplaysCons(Step(SimpleText, cc), New(), 0, Some(Ok(OpeningTagStart)), (At(2, Some('a'), Normal), 2),
      [Some(Ok(Character('a'))), Some(Ok(Whitespace(' '))), Some(Ok(Character('p'))), Some(Ok(EqualsSign))],
      [(At(3, None, Normal), 2), (At(4, None, Normal), 3), (At(5, None, Normal), 4), (At(6, None, Normal), 5)]);
  }

  /** Calls 6 to 10 of `simple_lexer_test`. */
  lemma SimpleReplays2(cc: CharClasses)
    requires cc.isWhitespace(' ') && !cc.isWhitespace('q')
    ensures Replays(Step(SimpleText, cc), At(6, None, Normal), 5,
                    [Some(Ok(SingleQuote)), Some(Ok(Character('q'))), Some(Ok(SingleQuote)), Some(Ok(TagEnd)),
                     Some(Ok(Whitespace(' ')))],
                    [(At(7, None, Normal), 6), (At(8, None, Normal), 7), (At(9, None, Normal), 8), (At(10, None, Normal), 9),
                     (At(11, None, Normal), 10)])
  {
    SimpleCall6(cc);
    SimpleCall7(cc);
    SimpleCall8(cc);
    SimpleCall9(cc);
    SimpleCall10(cc);
    ReplaysCons(Step(SimpleText, cc), At(10, None, Normal), 9, Some(Ok(Whitespace(' '))), (At(11, None, Normal), 10),
      [],
      []);
    ReplaysCons(Step(SimpleText, cc), At(9, None, Normal), 8, Some(Ok(TagEnd)), (At(10, None, Normal), 9),
      [Some(Ok(Whitespace(' ')))],
      [(At(11, None, Normal), 10)]);
    ReplaysCons(Step(SimpleText, cc), At(8, None, Normal), 7, Some(Ok(SingleQuote)), (At(9, None, Normal), 8),
      [Some(Ok(TagEnd)), Some(Ok(Whitespace(' ')))],
      [(At(10, None, Normal), 9), (At(11, None, Normal), 10)]);
    ReplaysCons(Step(SimpleText, cc), At(7, None, Normal), 6, Some(Ok(Character('q'))), (At(8, None, Normal), 7),
      [Some(Ok(SingleQuote)), Some(Ok(TagEnd)), Some(Ok(Whitespace(' ')))],
      [(At(9, None, Normal), 8), (At(10, None, Normal), 9), (At(11, None, Normal), 10)]);
    ReplaysCons(Step(SimpleText, cc), At(6, None, Normal), 5, Some(Ok(SingleQuote)), (At(7, None, Normal), 6),
      [Some(Ok(Character('q'))), Some(Ok(SingleQuote)), Some(Ok(TagEnd)), Some(Ok(Whitespace(' ')))],
      [(At(8, None, Normal), 7), (At(9, None, Normal), 8), (At(10, None, Normal), 9), (At(11, None, Normal), 10)]);
  }

  /** Calls 11 to 15 of `simple_lexer_test`. */
  lemma SimpleReplays3(cc: CharClasses)
    requires cc.isWhitespace(' ') && !cc.isWhitespace('x') && !cc.isWhitespace('b') && !cc.isWhitespace('z')
    requires cc.isNameChar('b')
    ensures Replays(Step(SimpleText, cc), At(11, None, Normal), 10,
                    [Some(Ok(Character('x'))), Some(Ok(OpeningTagStart)), Some(Ok(Character('b'))), Some(Ok(Whitespace(' '))),
                     Some(Ok(Character('z')))],
                    [(At(12, None, Normal), 11), (At(14, Some('b'), Normal), 13), (At(15, None, Normal), 13),
                     (At(16, None, Normal), 14), (At(17, None, Normal), 15)])
  {
    SimpleCall11(cc);
    SimpleCall12(cc);
    SimpleCall13(cc);
    SimpleCall14(cc);
    SimpleCall15(cc);
    ReplaysCons(Step(SimpleText, cc), At(16, None, Normal), 14, Some(Ok(Character('z'))), (At(17, None, Normal), 15),
      [],
      []);
    ReplaysCons(Step(SimpleText, cc), At(15, None, Normal), 13, Some(Ok(Whitespace(' '))), (At(16, None, Normal), 14),
      [Some(Ok(Character('z')))],
      [(At(17, None, Normal), 15)]);
    ReplaysCons(Step(SimpleText, cc), At(14, Some('b'), Normal), 13, Some(Ok(Character('b'))), (At(15, None, Normal), 13),
      [Some(Ok(Whitespace(' '))), Some(Ok(Character('z')))],
      [(At(16, None, Normal), 14), (At(17, None, Normal), 15)]);
    ReplaysCons(Step(SimpleText, cc), At(12, None, Normal), 11, Some(Ok(OpeningTagStart)), (At(14, Some('b'), Normal), 13),
      [Some(Ok(Character('b'))), Some(Ok(Whitespace(' '))), Some(Ok(Character('z')))],
      [(At(15, None, Normal), 13), (At(16, None, Normal), 14), (At(17, None, Normal), 15)]);
    ReplaysCons(Step(SimpleText, cc), At(11, None, Normal), 10, Some(Ok(Character('x'))), (At(12, None, Normal), 11),
      [Some(Ok(OpeningTagStart)), Some(Ok(Character('b'))), Some(Ok(Whitespace(' '))), Some(Ok(Character('z')))],
      [(At(14, Some('b'), Normal), 13), (At(15, None, Normal), 13), (At(16, None, Normal), 14),
       (At(17, None, Normal), 15)]);
  }

  /** Calls 16 to 20 of `simple_lexer_test`. */
  lemma SimpleReplays4(cc: CharClasses)
    requires !cc.isWhitespace('y')
    ensures Replays(Step(SimpleText, cc), At(17, None, Normal), 15,
                    [Some(Ok(EqualsSign)), Some(Ok(DoubleQuote)), Some(Ok(Character('y'))), Some(Ok(DoubleQuote)),
                     Some(Ok(TagEnd))],
                    [(At(18, None, Normal), 16), (At(19, None, Normal), 17), (At(20, None, Normal), 18),
                     (At(21, None, Normal), 19), (At(22, None, Normal), 20)])
  {
    SimpleCall16(cc);
    SimpleCall17(cc);
    SimpleCall18(cc);
    SimpleCall19(cc);
    SimpleCall20(cc);
    ReplaysCons(Step(SimpleText, cc), At(21, None, Normal), 19, Some(Ok(TagEnd)), (At(22, None, Normal), 20),
      [],
      []);
    ReplaysCons(Step(SimpleText, cc), At(20, None, Normal), 18, Some(Ok(DoubleQuote)), (At(21, None, Normal), 19),
      [Some(Ok(TagEnd))],
      [(At(22, None, Normal), 20)]);
    ReplaysCons(Step(SimpleText, cc), At(19, None, Normal), 17, Some(Ok(Character('y'))), (At(20, None, Normal), 18),
      [Some(Ok(DoubleQuote)), Some(Ok(TagEnd))],
      [(At(21, None, Normal), 19), (At(22, None, Normal), 20)]);
    ReplaysCons(Step(SimpleText, cc), At(18, None, Normal), 16, Some(Ok(DoubleQuote)), (At(19, None, Normal), 17),
      [Some(Ok(Character('y'))), Some(Ok(DoubleQuote)), Some(Ok(TagEnd))],
      [(At(20, None, Normal), 18), (At(21, None, Normal), 19), (At(22, None, Normal), 20)]);
    ReplaysCons(Step(SimpleText, cc), At(17, None, Normal), 15, Some(Ok(EqualsSign)), (At(18, None, Normal), 16),
      [Some(Ok(DoubleQuote)), Some(Ok(Character('y'))), Some(Ok(DoubleQuote)), Some(Ok(TagEnd))],
      [(At(19, None, Normal), 17), (At(20, None, Normal), 18), (At(21, None, Normal), 19),
       (At(22, None, Normal), 20)]);
  }

  /** Calls 21 to 25 of `simple_lexer_test`. */
  lemma SimpleReplays5(cc: CharClasses)
    requires cc.isWhitespace('\t') && !cc.isWhitespace('b') && !cc.isWhitespace('d')
    ensures Replays(Step(SimpleText, cc), At(22, None, Normal), 20,
                    [Some(Ok(Character('d'))), Some(Ok(Whitespace('\t'))), Some(Ok(ClosingTagStart)), Some(Ok(Character('b'))),
                     Some(Ok(TagEnd))],
                    [(At(23, None, Normal), 21), (At(24, None, Normal), 22), (At(26, None, Normal), 24),
                     (At(27, None, Normal), 25), (At(28, None, Normal), 26)])
  {
    SimpleCall21(cc);
    SimpleCall22(cc);
    SimpleCall23(cc);
    SimpleCall24(cc);
    SimpleCall25(cc);
    ReplaysCons(Step(SimpleText, cc), At(27, None, Normal), 25, Some(Ok(TagEnd)), (At(28, None, Normal), 26),
      [],
      []);
    ReplaysCons(Step(SimpleText, cc), At(26, None, Normal), 24, Some(Ok(Character('b'))), (At(27, None, Normal), 25),
      [Some(Ok(TagEnd))],
      [(At(28, None, Normal), 26)]);
    ReplaysCons(Step(SimpleText, cc), At(24, None, Normal), 22, Some(Ok(ClosingTagStart)), (At(26, None, Normal), 24),
      [Some(Ok(Character('b'))), Some(Ok(TagEnd))],
      [(At(27, None, Normal), 25), (At(28, None, Normal), 26)]);
    ReplaysCons(Step(SimpleText, cc), At(23, None, Normal), 21, Some(Ok(Whitespace('\t'))), (At(24, None, Normal), 22),
      [Some(Ok(ClosingTagStart)), Some(Ok(Character('b'))), Some(Ok(TagEnd))],
      [(At(26, None, Normal), 24), (At(27, None, Normal), 25), (At(28, None, Normal), 26)]);
    ReplaysCons(Step(SimpleText, cc), At(22, None, Normal), 20, Some(Ok(Character('d'))), (At(23, None, Normal), 21),
      [Some(Ok(Whitespace('\t'))), Some(Ok(ClosingTagStart)), Some(Ok(Character('b'))), Some(Ok(TagEnd))],
      [(At(24, None, Normal), 22), (At(26, None, Normal), 24), (At(27, None, Normal), 25),
       (At(28, None, Normal), 26)]);
  }

  /** Calls 26 to 30 of `simple_lexer_test`. */
  lemma SimpleReplays6(cc: CharClasses)
    requires !cc.isWhitespace('a') && !cc.isWhitespace('p') && cc.isNameChar('p')
    ensures Replays(Step(SimpleText, cc), At(28, None, Normal), 26,
                    [Some(Ok(ClosingTagStart)), Some(Ok(Character('a'))), Some(Ok(TagEnd)), Some(Ok(OpeningTagStart)),
                     Some(Ok(Character('p')))],
                    [(At(30, None, Normal), 28), (At(31, None, Normal), 29), (At(32, None, Normal), 30),
                     (At(34, Some('p'), Normal), 32), (At(35, None, Normal), 32)])
  {
    SimpleCall26(cc);
    SimpleCall27(cc);
    SimpleCall28(cc);
    SimpleCall29(cc);
    SimpleCall30(cc);
    ReplaysCons(Step(SimpleText, cc), At(34, Some('p'), Normal), 32, Some(Ok(Character('p'))), (At(35, None, Normal), 32),
      [],
      []);
    ReplaysCons(Step(SimpleText, cc), At(32, None, Normal), 30, Some(Ok(OpeningTagStart)), (At(34, Some('p'), Normal), 32),
      [Some(Ok(Character('p')))],
      [(At(35, None, Normal), 32)]);
    ReplaysCons(Step(SimpleText, cc), At(31, None, Normal), 29, Some(Ok(TagEnd)), (At(32, None, Normal), 30),
      [Some(Ok(OpeningTagStart)), Some(Ok(Character('p')))],
      [(At(34, Some('p'), Normal), 32), (At(35, None, Normal), 32)]);
    ReplaysCons(Step(SimpleText, cc), At(30, None, Normal), 28, Some(Ok(Character('a'))), (At(31, None, Normal), 29),
      [Some(Ok(TagEnd)), Some(Ok(OpeningTagStart)), Some(Ok(Character('p')))],
      [(At(32, None, Normal), 30), (At(34, Some('p'), Normal), 32), (At(35, None, Normal), 32)]);
    ReplaysCons(Step(SimpleText, cc), At(28, None, Normal), 26, Some(Ok(ClosingTagStart)), (At(30, None, Normal), 28),
      [Some(Ok(Character('a'))), Some(Ok(TagEnd)), Some(Ok(OpeningTagStart)), Some(Ok(Character('p')))],
      [(At(31, None, Normal), 29), (At(32, None, Normal), 30), (At(34, Some('p'), Normal), 32),
       (At(35, None, Normal), 32)]);
  }

  /** Calls 31 to 35 of `simple_lexer_test`. */
  lemma SimpleReplays7(cc: CharClasses)
    requires cc.isWhitespace(' ') && !cc.isWhitespace('n') && !cc.isWhitespace('m')
    ensures Replays(Step(SimpleText, cc), At(35, None, Normal), 32,
                    [Some(Ok(EmptyTagEnd)), Some(Ok(Whitespace(' '))), Some(Ok(ProcessingInstructionStart)),
                     Some(Ok(Character('n'))), Some(Ok(Character('m')))],
                    [(At(37, None, Normal), 34), (At(38, None, Normal), 35), (At(40, None, Normal), 37),
                     (At(41, None, Normal), 38), (At(42, None, Normal), 39)])
  {
    SimpleCall31(cc);
    SimpleCall32(cc);
    SimpleCall33(cc);
    SimpleCall34(cc);
    SimpleCall35(cc);
    ReplaysCons(Step(SimpleText, cc), At(41, None, Normal), 38, Some(Ok(Character('m'))), (At(42, None, Normal), 39),
      [],
      []);
    ReplaysCons(Step(SimpleText, cc), At(40, None, Normal), 37, Some(Ok(Character('n'))), (At(41, None, Normal), 38),
      [Some(Ok(Character('m')))],
      [(At(42, None, Normal), 39)]);
    ReplaysCons(Step(SimpleText, cc), At(38, None, Normal), 35, Some(Ok(ProcessingInstructionStart)), (At(40, None, Normal), 37),
      [Some(Ok(Character('n'))), Some(Ok(Character('m')))],
      [(At(41, None, Normal), 38), (At(42, None, Normal), 39)]);
    ReplaysCons(Step(SimpleText, cc), At(37, None, Normal), 34, Some(Ok(Whitespace(' '))), (At(38, None, Normal), 35),
      [Some(Ok(ProcessingInstructionStart)), Some(Ok(Character('n'))), Some(Ok(Character('m')))],
      [(At(40, None, Normal), 37), (At(41, None, Normal), 38), (At(42, None, Normal), 39)]);
    ReplaysCons(Step(SimpleText, cc), At(35, None, Normal), 32, Some(Ok(EmptyTagEnd)), (At(37, None, Normal), 34),
      [Some(Ok(Whitespace(' '))), Some(Ok(ProcessingInstructionStart)), Some(Ok(Character('n'))),
       Some(Ok(Character('m')))],
      [(At(38, None, Normal), 35), (At(40, None, Normal), 37), (At(41, None, Normal), 38),
       (At(42, None, Normal), 39)]);
  }

  /** Calls 36 to 40 of `simple_lexer_test`. */
  lemma SimpleReplays8(cc: CharClasses)
    requires cc.isWhitespace(' ')
    ensures Replays(Step(SimpleText, cc), At(42, None, Normal), 39,
                    [Some(Ok(Whitespace(' '))), Some(Ok(ProcessingInstructionEnd)), Some(Ok(Whitespace(' '))),
                     Some(Ok(CommentStart)), Some(Ok(Whitespace(' ')))],
                    [(At(43, None, Normal), 40), (At(45, None, Normal), 42), (At(46, None, Normal), 43),
                     (At(50, None, Normal), 47), (At(51, None, Normal), 48)])
  {
    SimpleCall36(cc);
    SimpleCall37(cc);
    SimpleCall38(cc);
    SimpleCall39(cc);
    SimpleCall40(cc);
    ReplaysCons(Step(SimpleText, cc), At(50, None, Normal), 47, Some(Ok(Whitespace(' '))), (At(51, None, Normal), 48),
      [],
      []);
    ReplaysCons(Step(SimpleText, cc), At(46, None, Normal), 43, Some(Ok(CommentStart)), (At(50, None, Normal), 47),
      [Some(Ok(Whitespace(' ')))],
      [(At(51, None, Normal), 48)]);
    ReplaysCons(Step(SimpleText, cc), At(45, None, Normal), 42, Some(Ok(Whitespace(' '))), (At(46, None, Normal), 43),
      [Some(Ok(CommentStart)), Some(Ok(Whitespace(' ')))],
      [(At(50, None, Normal), 47), (At(51, None, Normal), 48)]);
    ReplaysCons(Step(SimpleText, cc), At(43, None, Normal), 40, Some(Ok(ProcessingInstructionEnd)), (At(45, None, Normal), 42),
      [Some(Ok(Whitespace(' '))), Some(Ok(CommentStart)), Some(Ok(Whitespace(' ')))],
      [(At(46, None, Normal), 43), (At(50, None, Normal), 47), (At(51, None, Normal), 48)]);
    ReplaysCons(Step(SimpleText, cc), At(42, None, Normal), 39, Some(Ok(Whitespace(' '))), (At(43, None, Normal), 40),
      [Some(Ok(ProcessingInstructionEnd)), Some(Ok(Whitespace(' '))), Some(Ok(CommentStart)),
       Some(Ok(Whitespace(' ')))],
      [(At(45, None, Normal), 42), (At(46, None, Normal), 43), (At(50, None, Normal), 47),
       (At(51, None, Normal), 48)]);
  }

  /** Calls 41 to 45 of `simple_lexer_test`. */
  lemma SimpleReplays9(cc: CharClasses)
    requires cc.isWhitespace(' ') && !cc.isWhitespace('a') && !cc.isWhitespace('c')
    ensures Replays(Step(SimpleText, cc), At(51, None, Normal), 48,
                    [Some(Ok(Character('a'))), Some(Ok(Whitespace(' '))), Some(Ok(Character('c'))), Some(Ok(Whitespace(' '))),
                     Some(Ok(CommentEnd))],
                    [(At(52, None, Normal), 49), (At(53, None, Normal), 50), (At(54, None, Normal), 51),
                     (At(55, None, Normal), 52), (At(58, None, Normal), 55)])
  {
    SimpleCall41(cc);
    SimpleCall42(cc);
    SimpleCall43(cc);
    SimpleCall44(cc);
    SimpleCall45(cc);
    ReplaysCons(Step(SimpleText, cc), At(55, None, Normal), 52, Some(Ok(CommentEnd)), (At(58, None, Normal), 55),
      [],
      []);
    ReplaysCons(Step(SimpleText, cc), At(54, None, Normal), 51, Some(Ok(Whitespace(' '))), (At(55, None, Normal), 52),
      [Some(Ok(CommentEnd))],
      [(At(58, None, Normal), 55)]);
    ReplaysCons(Step(SimpleText, cc), At(53, None, Normal), 50, Some(Ok(Character('c'))), (At(54, None, Normal), 51),
      [Some(Ok(Whitespace(' '))), Some(Ok(CommentEnd))],
      [(At(55, None, Normal), 52), (At(58, None, Normal), 55)]);
    ReplaysCons(Step(SimpleText, cc), At(52, None, Normal), 49, Some(Ok(Whitespace(' '))), (At(53, None, Normal), 50),
      [Some(Ok(Character('c'))), Some(Ok(Whitespace(' '))), Some(Ok(CommentEnd))],
      [(At(54, None, Normal), 51), (At(55, None, Normal), 52), (At(58, None, Normal), 55)]);
    ReplaysCons(Step(SimpleText, cc), At(51, None, Normal), 48, Some(Ok(Character('a'))), (At(52, None, Normal), 49),
      [Some(Ok(Whitespace(' '))), Some(Ok(Character('c'))), Some(Ok(Whitespace(' '))), Some(Ok(CommentEnd))],
      [(At(53, None, Normal), 50), (At(54, None, Normal), 51), (At(55, None, Normal), 52),
       (At(58, None, Normal), 55)]);
  }

  /** Calls 46 to 50 of `simple_lexer_test`. */
  lemma SimpleReplays10(cc: CharClasses)
    requires cc.isWhitespace(' ') && !cc.isWhitespace('b') && !cc.isWhitespace('n') && !cc.isWhitespace('s')
    ensures Replays(Step(SimpleText, cc), At(58, None, Normal), 55,
                    [Some(Ok(Whitespace(' '))), Some(Ok(ReferenceStart)), Some(Ok(Character('n'))), Some(Ok(Character('b'))),
                     Some(Ok(Character('s')))],
                    [(At(59, None, Normal), 56), (At(60, None, Normal), 57), (At(61, None, Normal), 58),
                     (At(62, None, Normal), 59), (At(63, None, Normal), 60)])
  {
    SimpleCall46(cc);
    SimpleCall47(cc);
    SimpleCall48(cc);
    SimpleCall49(cc);
    SimpleCall50(cc);
    ReplaysCons(Step(SimpleText, cc), At(62, None, Normal), 59, Some(Ok(Character('s'))), (At(63, None, Normal), 60),
      [],
      []);
    ReplaysCons(Step(SimpleText, cc), At(61, None, Normal), 58, Some(Ok(Character('b'))), (At(62, None, Normal), 59),
      [Some(Ok(Character('s')))],
      [(At(63, None, Normal), 60)]);
    ReplaysCons(Step(SimpleText, cc), At(60, None, Normal), 57, Some(Ok(Character('n'))), (At(61, None, Normal), 58),
      [Some(Ok(Character('b'))), Some(Ok(Character('s')))],
      [(At(62, None, Normal), 59), (At(63, None, Normal), 60)]);
    ReplaysCons(Step(SimpleText, cc), At(59, None, Normal), 56, Some(Ok(ReferenceStart)), (At(60, None, Normal), 57),
      [Some(Ok(Character('n'))), Some(Ok(Character('b'))), Some(Ok(Character('s')))],
      [(At(61, None, Normal), 58), (At(62, None, Normal), 59), (At(63, None, Normal), 60)]);
    ReplaysCons(Step(SimpleText, cc), At(58, None, Normal), 55, Some(Ok(Whitespace(' '))), (At(59, None, Normal), 56),
      [Some(Ok(ReferenceStart)), Some(Ok(Character('n'))), Some(Ok(Character('b'))), Some(Ok(Character('s')))],
      [(At(60, None, Normal), 57), (At(61, None, Normal), 58), (At(62, None, Normal), 59),
       (At(63, None, Normal), 60)]);
  }

  /** Calls 51 to 53 of `simple_lexer_test`, to the end of the stream. */
  lemma SimpleReplays11(cc: CharClasses)
    requires !cc.isWhitespace('p')
    ensures Replays(Step(SimpleText, cc), At(63, None, Normal), 60,
                    [Some(Ok(Character('p'))), Some(Ok(ReferenceEnd)), None],
                    [(At(64, None, Normal), 61), (At(65, None, Normal), 62), (At(65, None, Normal).(eofHandled := true), 62)])
  {
    SimpleCall51(cc);
    SimpleCall52(cc);
    SimpleCall53(cc);
    ReplaysCons(Step(SimpleText, cc), At(65, None, Normal), 62, None, (At(65, None, Normal).(eofHandled := true), 62),
      [],
      []);
    ReplaysCons(Step(SimpleText, cc), At(64, None, Normal), 61, Some(Ok(ReferenceEnd)), (At(65, None, Normal), 62),
      [None],
      [(At(65, None, Normal).(eofHandled := true), 62)]);
    ReplaysCons(Step(SimpleText, cc), At(63, None, Normal), 60, Some(Ok(Character('p'))), (At(64, None, Normal), 61),
      [Some(Ok(ReferenceEnd)), None],
      [(At(65, None, Normal), 62), (At(65, None, Normal).(eofHandled := true), 62)]);
  }

  /**
   * `simple_lexer_test`: a small document with tags, attributes, a processing instruction,
   * a comment and a reference comes back as the 52 tokens the test lists, then
   * nothing. The list is written five calls at a time.
   */
  lemma SimpleLexerTest(cc: CharClasses)
    requires cc.isWhitespace(' ') && cc.isWhitespace('\t') && !cc.isWhitespace('a') && !cc.isWhitespace('p')
    requires !cc.isWhitespace('q') && !cc.isWhitespace('x') && !cc.isWhitespace('b') && !cc.isWhitespace('z')
    requires !cc.isWhitespace('y') && !cc.isWhitespace('d') && !cc.isWhitespace('n') && !cc.isWhitespace('m')
    requires !cc.isWhitespace('c') && !cc.isWhitespace('s') && cc.isNameChar('a') && cc.isNameChar('b')
    requires cc.isNameChar('p')
    ensures Run(New(), SimpleText, 0, 53, cc).0
            == [Some(Ok(OpeningTagStart)), Some(Ok(Character('a'))), Some(Ok(Whitespace(' '))), Some(Ok(Character('p'))), Some(Ok(EqualsSign))]
            +  [Some(Ok(SingleQuote)), Some(Ok(Character('q'))), Some(Ok(SingleQuote)), Some(Ok(TagEnd)), Some(Ok(Whitespace(' ')))]
            +  [Some(Ok(Character('x'))), Some(Ok(OpeningTagStart)), Some(Ok(Character('b'))), Some(Ok(Whitespace(' '))), Some(Ok(Character('z')))]
            +  [Some(Ok(EqualsSign)), Some(Ok(DoubleQuote)), Some(Ok(Character('y'))), Some(Ok(DoubleQuote)), Some(Ok(TagEnd))]
            +  [Some(Ok(Character('d'))), Some(Ok(Whitespace('\t'))), Some(Ok(ClosingTagStart)), Some(Ok(Character('b'))), Some(Ok(TagEnd))]
            +  [Some(Ok(ClosingTagStart)), Some(Ok(Character('a'))), Some(Ok(TagEnd)), Some(Ok(OpeningTagStart)), Some(Ok(Character('p')))]
            +  [Some(Ok(EmptyTagEnd)), Some(Ok(Whitespace(' '))), Some(Ok(ProcessingInstructionStart)), Some(Ok(Character('n'))), Some(Ok(Character('m')))]
            +  [Some(Ok(Whitespace(' '))), Some(Ok(ProcessingInstructionEnd)), Some(Ok(Whitespace(' '))), Some(Ok(CommentStart)), Some(Ok(Whitespace(' ')))]
            +  [Some(Ok(Character('a'))), Some(Ok(Whitespace(' '))), Some(Ok(Character('c'))), Some(Ok(Whitespace(' '))), Some(Ok(CommentEnd))]
            +  [Some(Ok(Whitespace(' '))), Some(Ok(ReferenceStart)), Some(Ok(Character('n'))), Some(Ok(Character('b'))), Some(Ok(Character('s')))]
            +  [Some(Ok(Character('p'))), Some(Ok(ReferenceEnd)), None]
  {
    var r1: seq<Option<LexResult>>, e1: seq<(LexerState, nat)> := [Some(Ok(OpeningTagStart)), Some(Ok(Character('a'))), Some(Ok(Whitespace(' '))), Some(Ok(Character('p'))), Some(Ok(EqualsSign))],
      [(At(2, Some('a'), Normal), 2), (At(3, None, Normal), 2), (At(4, None, Normal), 3),
       (At(5, None, Normal), 4), (At(6, None, Normal), 5)];
    SimpleReplays1(cc);
    ReplaysToLast(Step(SimpleText, cc), (New(), 0), r1, e1, (At(6, None, Normal), 5));
    var r2: seq<Option<LexResult>>, e2: seq<(LexerState, nat)> := [Some(Ok(SingleQuote)), Some(Ok(Character('q'))), Some(Ok(SingleQuote)), Some(Ok(TagEnd)), Some(Ok(Whitespace(' ')))],
      [(At(7, None, Normal), 6), (At(8, None, Normal), 7), (At(9, None, Normal), 8), (At(10, None, Normal), 9),
       (At(11, None, Normal), 10)];
    SimpleReplays2(cc);
    ReplaysToLast(Step(SimpleText, cc), (At(6, None, Normal), 5), r2, e2, (At(11, None, Normal), 10));
    var r3: seq<Option<LexResult>>, e3: seq<(LexerState, nat)> := [Some(Ok(Character('x'))), Some(Ok(OpeningTagStart)), Some(Ok(Character('b'))), Some(Ok(Whitespace(' '))), Some(Ok(Character('z')))],
      [(At(12, None, Normal), 11), (At(14, Some('b'), Normal), 13), (At(15, None, Normal), 13),
       (At(16, None, Normal), 14), (At(17, None, Normal), 15)];
    SimpleReplays3(cc);
    ReplaysToLast(Step(SimpleText, cc), (At(11, None, Normal), 10), r3, e3, (At(17, None, Normal), 15));
    var r4: seq<Option<LexResult>>, e4: seq<(LexerState, nat)> := [Some(Ok(EqualsSign)), Some(Ok(DoubleQuote)), Some(Ok(Character('y'))), Some(Ok(DoubleQuote)), Some(Ok(TagEnd))],
      [(At(18, None, Normal), 16), (At(19, None, Normal), 17), (At(20, None, Normal), 18),
       (At(21, None, Normal), 19), (At(22, None, Normal), 20)];
    SimpleReplays4(cc);
    ReplaysToLast(Step(SimpleText, cc), (At(17, None, Normal), 15), r4, e4, (At(22, None, Normal), 20));
    var r5: seq<Option<LexResult>>, e5: seq<(LexerState, nat)> := [Some(Ok(Character('d'))), Some(Ok(Whitespace('\t'))), Some(Ok(ClosingTagStart)), Some(Ok(Character('b'))), Some(Ok(TagEnd))],
      [(At(23, None, Normal), 21), (At(24, None, Normal), 22), (At(26, None, Normal), 24),
       (At(27, None, Normal), 25), (At(28, None, Normal), 26)];
    SimpleReplays5(cc);
    ReplaysToLast(Step(SimpleText, cc), (At(22, None, Normal), 20), r5, e5, (At(28, None, Normal), 26));
    var r6: seq<Option<LexResult>>, e6: seq<(LexerState, nat)> := [Some(Ok(ClosingTagStart)), Some(Ok(Character('a'))), Some(Ok(TagEnd)), Some(Ok(OpeningTagStart)), Some(Ok(Character('p')))],
      [(At(30, None, Normal), 28), (At(31, None, Normal), 29), (At(32, None, Normal), 30),
       (At(34, Some('p'), Normal), 32), (At(35, None, Normal), 32)];
    SimpleReplays6(cc);
    ReplaysToLast(Step(SimpleText, cc), (At(28, None, Normal), 26), r6, e6, (At(35, None, Normal), 32));
    var r7: seq<Option<LexResult>>, e7: seq<(LexerState, nat)> := [Some(Ok(EmptyTagEnd)), Some(Ok(Whitespace(' '))), Some(Ok(ProcessingInstructionStart)), Some(Ok(Character('n'))), Some(Ok(Character('m')))],
      [(At(37, None, Normal), 34), (At(38, None, Normal), 35), (At(40, None, Normal), 37),
       (At(41, None, Normal), 38), (At(42, None, Normal), 39)];
    SimpleReplays7(cc);
    ReplaysToLast(Step(SimpleText, cc), (At(35, None, Normal), 32), r7, e7, (At(42, None, Normal), 39));
    var r8: seq<Option<LexResult>>, e8: seq<(LexerState, nat)> := [Some(Ok(Whitespace(' '))), Some(Ok(ProcessingInstructionEnd)), Some(Ok(Whitespace(' '))), Some(Ok(CommentStart)), Some(Ok(Whitespace(' ')))],
      [(At(43, None, Normal), 40), (At(45, None, Normal), 42), (At(46, None, Normal), 43),
       (At(50, None, Normal), 47), (At(51, None, Normal), 48)];
    SimpleReplays8(cc);
    ReplaysToLast(Step(SimpleText, cc), (At(42, None, Normal), 39), r8, e8, (At(51, None, Normal), 48));
    var r9: seq<Option<LexResult>>, e9: seq<(LexerState, nat)> := [Some(Ok(Character('a'))), Some(Ok(Whitespace(' '))), Some(Ok(Character('c'))), Some(Ok(Whitespace(' '))), Some(Ok(CommentEnd))],
      [(At(52, None, Normal), 49), (At(53, None, Normal), 50), (At(54, None, Normal), 51),
       (At(55, None, Normal), 52), (At(58, None, Normal), 55)];
    SimpleReplays9(cc);
    ReplaysToLast(Step(SimpleText, cc), (At(51, None, Normal), 48), r9, e9, (At(58, None, Normal), 55));
    var r10: seq<Option<LexResult>>, e10: seq<(LexerState, nat)> := [Some(Ok(Whitespace(' '))), Some(Ok(ReferenceStart)), Some(Ok(Character('n'))), Some(Ok(Character('b'))), Some(Ok(Character('s')))],
      [(At(59, None, Normal), 56), (At(60, None, Normal), 57), (At(61, None, Normal), 58),
       (At(62, None, Normal), 59), (At(63, None, Normal), 60)];
    SimpleReplays10(cc);
    ReplaysToLast(Step(SimpleText, cc), (At(58, None, Normal), 55), r10, e10, (At(63, None, Normal), 60));
    var r11: seq<Option<LexResult>>, e11: seq<(LexerState, nat)> := [Some(Ok(Character('p'))), Some(Ok(ReferenceEnd)), None],
      [(At(64, None, Normal), 61), (At(65, None, Normal), 62), (At(65, None, Normal).(eofHandled := true), 62)];
    SimpleReplays11(cc);
    ReplaysToLast(Step(SimpleText, cc), (At(63, None, Normal), 60), r11, e11, (At(65, None, Normal).(eofHandled := true), 62));
    var rs, es := r1, e1;
    ReplaysToAppend(Step(SimpleText, cc), (New(), 0), rs, es, (At(6, None, Normal), 5), r2, e2, (At(11, None, Normal), 10));
    rs, es := rs + r2, es + e2;
    ReplaysToAppend(Step(SimpleText, cc), (New(), 0), rs, es, (At(11, None, Normal), 10), r3, e3, (At(17, None, Normal), 15));
    rs, es := rs + r3, es + e3;
    ReplaysToAppend(Step(SimpleText, cc), (New(), 0), rs, es, (At(17, None, Normal), 15), r4, e4, (At(22, None, Normal), 20));
    rs, es := rs + r4, es + e4;
    ReplaysToAppend(Step(SimpleText, cc), (New(), 0), rs, es, (At(22, None, Normal), 20), r5, e5, (At(28, None, Normal), 26));
    rs, es := rs + r5, es + e5;
    ReplaysToAppend(Step(SimpleText, cc), (New(), 0), rs, es, (At(28, None, Normal), 26), r6, e6, (At(35, None, Normal), 32));
    rs, es := rs + r6, es + e6;
    ReplaysToAppend(Step(SimpleText, cc), (New(), 0), rs, es, (At(35, None, Normal), 32), r7, e7, (At(42, None, Normal), 39));
    rs, es := rs + r7, es + e7;
    ReplaysToAppend(Step(SimpleText, cc), (New(), 0), rs, es, (At(42, None, Normal), 39), r8, e8, (At(51, None, Normal), 48));
    rs, es := rs + r8, es + e8;
    ReplaysToAppend(Step(SimpleText, cc), (New(), 0), rs, es, (At(51, None, Normal), 48), r9, e9, (At(58, None, Normal), 55));
    rs, es := rs + r9, es + e9;
    ReplaysToAppend(Step(SimpleText, cc), (New(), 0), rs, es, (At(58, None, Normal), 55), r10, e10, (At(63, None, Normal), 60));
    rs, es := rs + r10, es + e10;
    ReplaysToAppend(Step(SimpleText, cc), (New(), 0), rs, es, (At(63, None, Normal), 60), r11, e11, (At(65, None, Normal).(eofHandled := true), 62));
    rs, es := rs + r11, es + e11;
    assert Replays(Step(SimpleText, cc), New(), 0, rs, es);
    assert |rs| == 53;
    ReplaysRun(New(), SimpleText, 0, rs, es, cc);
  }
}
