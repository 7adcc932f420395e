/** The vocabulary of the tab notation: the six guitar strings, the
    one-letter string ids a token uses, the display letters of the tracks,
    digits, and the errors the tab maker can raise. */
module Notation {

  datatype Option<+T> = None | Some(value: T)

  /** The exceptions of the tab maker. Python raises them; the model returns them. */
  datatype TabError =
    | EmptyToken                // IndexError: `note[0]` on an empty token
    | MissingRestLength         // IndexError: `note[1]` on the one-character token "z"
    | BadRestLength(c: char)    // ValueError: `int(note[1])` on a character that is not a digit
    | MissingFileName           // Exception raised by save_tab for a missing or empty name

  datatype Result<+T> = Success(value: T) | Failure(error: TabError)

  datatype Outcome = Pass | Fail(error: TabError)

  /** The six strings of a guitar, from high e to low E. The high and the low
      string are displayed with the same letter but are distinct tracks. */
  datatype GuitarString = HighE | B | G | D | A | LowE

  /** The order in which a line lists its tracks. */
  const AllStrings: seq<GuitarString> := [HighE, B, G, D, A, LowE]

  const AllStringSet: set<GuitarString> := {HighE, B, G, D, A, LowE}

  /** AllStringSet holds every string. */
  lemma InAllStrings(s: GuitarString)
    ensures s in AllStringSet
  {
    match s
    case HighE => case B => case G => case D => case A => case LowE =>
  }

  /** Position of a string in AllStrings. */
  function Index(s: GuitarString): (r: nat)
    ensures r < |AllStrings| && AllStrings[r] == s
  {
    match s
    case HighE => 0
    case B => 1
    case G => 2
    case D => 3
    case A => 4
    case LowE => 5
  }

  /** The id a token uses to name a string: the keys of the note map. */
  function Key(s: GuitarString): (r: char)
    ensures r != 'z'
  {
    match s
    case HighE => 'e'
    case B => 'B'
    case G => 'G'
    case D => 'D'
    case A => 'A'
    case LowE => 'E'
  }

  /** Looks a token character up in the note map. */
  function IdOf(c: char): (r: Option<GuitarString>)
    ensures r.Some? ==> Key(r.value) == c
    ensures r.None? ==> forall s :: Key(s) != c
  {
    match c
    case 'e' => Some(HighE)
    case 'B' => Some(B)
    case 'G' => Some(G)
    case 'D' => Some(D)
    case 'A' => Some(A)
    case 'E' => Some(LowE)
    case _ => None
  }

  /** The letter a track is displayed with. */
  function Prefix(s: GuitarString): (r: char)
    ensures r == Key(s) <==> s != HighE
  {
    match s
    case HighE => 'E'
    case B => 'B'
    case G => 'G'
    case D => 'D'
    case A => 'A'
    case LowE => 'E'
  }

  /** High e and low E share a display letter but not a note-map key. */
  lemma SharedLetterDistinctKeys()
    ensures Prefix(HighE) == Prefix(LowE) && HighE != LowE
    ensures Key(HighE) != Key(LowE) && IdOf('e') != IdOf('E')
  {
  }

  predicate IsDigit(c: char)
  {
    '0' <= c <= '9'
  }

  /** The value `int(c)` gives a one-character digit string. */
  function DigitValue(c: char): (r: nat)
    requires IsDigit(c)
    ensures r < 10 && DigitChar(r) == c
  {
    (c - '0') as nat
  }

  function DigitChar(d: nat): (c: char)
    requires d < 10
    ensures IsDigit(c) && (c == '0' <==> d == 0)
  {
    ('0' as int + d) as char
  }

  /** `'-' * n` */
  function Dashes(n: nat): (r: string)
    ensures |r| == n && forall i :: 0 <= i < n ==> r[i] == '-'
  {
    seq(n, _ => '-')
  }
}
