/** Vocabulary shared by the lobby server and the game screen. */
module Protocol {

  datatype Option<T> = None | Some(value: T) {
    /** The value, or `default` when there is none. */
    function GetOr(default: T): T {
      match this
      case Some(v) => v
      case None => default
    }
  }

  /** A side of the board; White moves first. */
  datatype Color = White | Black

  /** The colour's name on the wire. */
  function ColorName(c: Color): string
  {
    match c
    case White => "white"
    case Black => "black"
  }

  function Opposite(c: Color): (o: Color)
    ensures o != c
  {
    match c
    case White => Black
    case Black => White
  }

  /** The two names differ, so a name identifies its colour. */
  lemma ColorNameInjective(a: Color, b: Color)
    ensures ColorName(a) == ColorName(b) <==> a == b
  {
  }
}
