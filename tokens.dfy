/**
 * The lexemes of the XML lexer (src/reader/lexer.rs) and their pure queries.
 */
module Tokens {

  datatype Option<T> = None | Some(value: T)

  /** A single lexeme of an XML document. */
  datatype Token =
    | ProcessingInstructionStart   // <?
    | ProcessingInstructionEnd     // ?>
    | DoctypeStart                 // <!DOCTYPE
    | OpeningTagStart              // <
    | ClosingTagStart              // </
    | TagEnd                       // >
    | EmptyTagEnd                  // />
    | CommentStart                 // <!--
    | CommentEnd                   // -->
    | Chunk(s: string)             // a fragment emitted for error recovery
    | Character(c: char)           // any non-special, non-whitespace character
    | Whitespace(c: char)          // a whitespace character
    | EqualsSign                   // =
    | SingleQuote                  // '
    | DoubleQuote                  // "
    | CDataStart                   // <![CDATA[
    | CDataEnd                     // ]]>
    | ReferenceStart               // &
    | ReferenceEnd                 // ;

  /** The textual rendering of a token (the `fmt::String` implementation). */
  function Render(t: Token): (r: string)
    ensures t.Chunk? ==> r == t.s
    ensures t.Character? || t.Whitespace? ==> r == [t.c]
    ensures !t.Chunk? ==> 1 <= |r| <= 9
  {
    match t
    case Chunk(s) => s
    case Character(c) => [c]
    case Whitespace(c) => [c]
    case OpeningTagStart => "<"
    case ProcessingInstructionStart => "<?"
    case DoctypeStart => "<!DOCTYPE"
    case ClosingTagStart => "</"
    case CommentStart => "<!--"
    case CDataStart => "<![CDATA["
    case TagEnd => ">"
    case EmptyTagEnd => "/>"
    case ProcessingInstructionEnd => "?>"
    case CommentEnd => "-->"
    case CDataEnd => "]]>"
    case ReferenceStart => "&"
    case ReferenceEnd => ";"
    case EqualsSign => "="
    case SingleQuote => "'"
    case DoubleQuote => "\""
  }

  /**
   * The fixed text of a markup token; absent for the tokens that carry their
   * own text. The table is kept separately from Render in the source; the
   * contract says the two agree.
   */
  function AsStaticStr(t: Token): (r: Option<string>)
    ensures r.None? <==> (t.Chunk? || t.Character? || t.Whitespace?)
    ensures r.Some? ==> r.value == Render(t)
  {
    match t
    case OpeningTagStart => Some("<")
    case ProcessingInstructionStart => Some("<?")
    case DoctypeStart => Some("<!DOCTYPE")
    case ClosingTagStart => Some("</")
    case CommentStart => Some("<!--")
    case CDataStart => Some("<![CDATA[")
    case TagEnd => Some(">")
    case EmptyTagEnd => Some("/>")
    case ProcessingInstructionEnd => Some("?>")
    case CommentEnd => Some("-->")
    case CDataEnd => Some("]]>")
    case ReferenceStart => Some("&")
    case ReferenceEnd => Some(";")
    case EqualsSign => Some("=")
    case SingleQuote => Some("'")
    case DoubleQuote => Some("\"")
    case _ => None
  }

  /** A fixed text names one token: no two markup tokens share their text. */
  lemma StaticStrInjective(t: Token, u: Token)
    requires AsStaticStr(t).Some? && AsStaticStr(t) == AsStaticStr(u)
    ensures t == u
  {
  }

  /**
   * Whether the token's text may be read as character data: every token
   * without fixed text, and of the fixed ones exactly `>`, `=` and the quotes.
   */
  function ContainsCharData(t: Token): (r: bool)
    ensures r <==> (AsStaticStr(t).None? || Render(t) in {">", "=", "\"", "'"})
  {
    match t
    case Whitespace(_) | Chunk(_) | Character(_) | TagEnd | EqualsSign | DoubleQuote | SingleQuote => true
    case _ => false
  }

  /** Whether the token is a whitespace character. */
  function IsWhitespace(t: Token): (r: bool)
    ensures r <==> t.Whitespace?
    ensures r ==> ContainsCharData(t) && |Render(t)| == 1
  {
    match t
    case Whitespace(_) => true
    case _ => false
  }
}
