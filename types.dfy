/** The records shared by every screen: a game result, a child profile, the
    wall-clock reading a component takes when it stamps a record, and the
    whitespace test behind JavaScript's `trim()`. */
module Types {

  datatype Option<T> = None | Some(value: T)

  /** The `details` block of a result. */
  datatype Details = Details(
    correctAnswers: int,
    incorrectAnswers: int,
    patterns: seq<string>,
    reactions: seq<string>)

  /** One finished game session. `date` is the timestamp in milliseconds. */
  datatype GameResult = GameResult(
    id: string,
    gameType: string,
    score: int,
    errors: int,
    timeSpent: int,
    date: int,
    details: Details)

  /** A child's profile; `gameResults` is in insertion (chronological) order. */
  datatype ChildProfile = ChildProfile(
    id: string,
    name: string,
    age: int,
    createdAt: int,
    gameResults: seq<GameResult>)

  /** A reading of `Date.now()` together with the id string the component
      derives from it (`Date.now().toString()`). */
  datatype Stamp = Stamp(now: int, id: string)

  /** The six game-type labels a result can carry. */
  const MemoryLabel: string := "Jogo da Memória"
  const PatternLabel: string := "Jogo de Sequências"
  const ColorLabel: string := "Jogo das Cores"
  const ShapeLabel: string := "Jogo das Formas"
  const NumberLabel: string := "Jogo dos Números"
  const SoundLabel: string := "Jogo dos Sons"

  /** The characters ECMAScript's `String.prototype.trim` removes: the
      WhiteSpace and LineTerminator classes of the language standard. */
  predicate IsWhitespace(c: char)
  {
    c == '\t' || c == '\n' || c == '\U{000B}' || c == '\U{000C}' || c == '\r' || c == ' '
    || c == '\U{00A0}' || c == '\U{1680}' || ('\U{2000}' <= c <= '\U{200A}')
    || c == '\U{2028}' || c == '\U{2029}' || c == '\U{202F}' || c == '\U{205F}'
    || c == '\U{3000}' || c == '\U{FEFF}'
  }

  /** `!s.trim()`: trimming leaves the empty string exactly when every
      character is whitespace. */
  predicate IsBlank(s: string)
  {
    forall i :: 0 <= i < |s| ==> IsWhitespace(s[i])
  }
}
