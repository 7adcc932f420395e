/** One line of tablature: six tracks, one per guitar string, that grow as
    note tokens are added.

    A token is read two characters at a time as (string id, value) pairs.
    Each pair whose id is in the note map appends the value and two dashes
    to that string's track. Every track no pair named then gets a rest:
    three dashes, or, for a token starting with 'z', as many dashes as the
    digit after the 'z' says.

    The first half of this module states what one token and one batch of
    tokens do to each track, as functions of the token text alone; the
    class TranscriptionLine carries out the same steps in place and is
    proved to follow those functions. */
module Transcription {
  import opened Notation

  /** The cell a note adds to its track: the value and two dashes. */
  function Cell(v: char): string
  {
    [v, '-', '-']
  }

  /** The rest a plain token adds to each track it does not name. */
  const Beat: string := "---"

  /** A fresh track: its display letter, a bar and a two-dash base cell. */
  function InitialTrack(s: GuitarString): (r: string)
    ensures |r| == 4 && r[0] == Prefix(s) && r[1] == '|' && r[2..] == "--"
  {
    [Prefix(s), '|'] + "--"
  }

  // ---------------------------------------------------------------------
  // The pair scan: `for i in range(0, len(note) - 1, 2)` reads the pairs
  // (note[0], note[1]), (note[2], note[3]), ... and never a trailing odd
  // character.

  /** What the pair (id, v) adds to the track of s. */
  function PairCell(id: char, v: char, s: GuitarString): string
  {
    if IdOf(id) == Some(s) then Cell(v) else []
  }

  /** The string the pair's id names, if any, as a set. */
  function PairIds(id: char): set<GuitarString>
  {
    match IdOf(id)
    case Some(t) => {t}
    case None => {}
  }

  /** What the pair scan of a token adds to the track of s. */
  function PairsGain(note: string, s: GuitarString): (r: string)
    ensures |r| % 3 == 0
  {
    if |note| < 2 then [] else PairCell(note[0], note[1], s) + PairsGain(note[2..], s)
  }

  /** The strings the pairs of a token name (`updated_strings`). */
  function TouchedBy(note: string): set<GuitarString>
  {
    if |note| < 2 then {} else PairIds(note[0]) + TouchedBy(note[2..])
  }

  /** How many pairs of a token name s. */
  function NamingIn(note: string, s: GuitarString): (r: nat)
    ensures 2 * r <= |note|
    ensures r > 0 ==> Key(s) in note
  {
    if |note| < 2 then 0 else (if IdOf(note[0]) == Some(s) then 1 else 0) + NamingIn(note[2..], s)
  }

  // ---------------------------------------------------------------------
  // One token

  /** The rest a token gives each track it does not name, or the error
      computing it raises. */
  function RestFill(note: string): (r: Result<string>)
    ensures r.Failure? <==> |note| == 0 || (note[0] == 'z' && (|note| < 2 || !IsDigit(note[1])))
    ensures r.Success? && note[0] != 'z' ==> r.value == Beat
    ensures r.Success? && note[0] == 'z' ==> r.value == Dashes(DigitValue(note[1]))
    ensures r == Failure(EmptyToken) <==> |note| == 0
    ensures r == Failure(MissingRestLength) <==> note == "z"
    ensures r.Failure? && 2 <= |note| ==> r == Failure(BadRestLength(note[1]))
  {
    if |note| == 0 then Failure(EmptyToken)
    else if note[0] != 'z' then Success(Beat)
    else if |note| < 2 then Failure(MissingRestLength)
    else if !IsDigit(note[1]) then Failure(BadRestLength(note[1]))
    else Success(Dashes(DigitValue(note[1])))
  }

  /** Whether processing a token raises. The rest length of a 'z' token is
      parsed only when some track was left unnamed, so a 'z' token naming
      all six strings never fails. */
  function TokenOutcome(note: string): (r: Outcome)
    ensures r.Fail? ==> RestFill(note).Failure? && r.error == RestFill(note).error
    ensures r == Fail(EmptyToken) <==> |note| == 0
    ensures r.Fail? && |note| > 0 ==> note[0] == 'z' && TouchedBy(note) != AllStringSet
    ensures |note| > 0 && note[0] == 'z' && TouchedBy(note) != AllStringSet && RestFill(note).Failure? ==>
              r == Fail(RestFill(note).error)
  {
    if |note| == 0 then Fail(EmptyToken)
    else if note[0] == 'z' && TouchedBy(note) == AllStringSet then Pass
    else
      match RestFill(note)
      case Success(_) => Pass
      case Failure(e) => Fail(e)
  }

  /** What processing a token adds to the track of s: the cells of the
      pairs naming s, then the rest if no pair named s and no error. */
  function TokenGain(note: string, s: GuitarString): (r: string)
    ensures PairsGain(note, s) <= r
    ensures s in TouchedBy(note) || TokenOutcome(note).Fail? ==> r == PairsGain(note, s)
    ensures s !in TouchedBy(note) && TokenOutcome(note).Pass? ==>
              RestFill(note).Success? && r == PairsGain(note, s) + RestFill(note).value
  {
    InAllStrings(s);
    PairsGain(note, s) +
      if s in TouchedBy(note) then []
      else
        match RestFill(note)
        case Success(f) => f
        case Failure(_) => []
  }

  /** All six tracks grow by the same amount. */
  ghost predicate Aligned(note: string)
  {
    forall s, t :: |TokenGain(note, s)| == |TokenGain(note, t)|
  }

  // ---------------------------------------------------------------------
  // A batch of tokens: processed in order, stopping at the first error,
  // with nothing undone.

  function BatchOutcome(notes: seq<string>): (r: Outcome)
    ensures r.Fail? <==> exists i :: 0 <= i < |notes| && TokenOutcome(notes[i]).Fail?
  {
    if notes == [] then Pass
    else
      var prefix := notes[..|notes| - 1];
      var o := BatchOutcome(prefix);
      if o.Fail? then o else TokenOutcome(notes[|notes| - 1])
  }

  function BatchGain(notes: seq<string>, s: GuitarString): string
  {
    if notes == [] then []
    else
      var prefix := notes[..|notes| - 1];
      if BatchOutcome(prefix).Fail? then BatchGain(prefix, s)
      else BatchGain(prefix, s) + TokenGain(notes[|notes| - 1], s)
  }

  // ---------------------------------------------------------------------
  // Properties of the pair scan

  /** Each pair naming s adds one three-character cell; s is touched
      exactly when some pair names it. */
  lemma {:induction false} PairsGainShape(note: string, s: GuitarString)
    ensures |PairsGain(note, s)| == 3 * NamingIn(note, s)
    ensures s in TouchedBy(note) <==> NamingIn(note, s) > 0
    decreases |note|
  {
    if |note| >= 2 {
      PairsGainShape(note[2..], s);
    }
  }

  /** A token names at most one string per pair. */
  lemma {:induction false} TouchedByBound(note: string)
    ensures 2 * |TouchedBy(note)| <= |note|
    decreases |note|
  {
    if |note| >= 2 {
      TouchedByBound(note[2..]);
    }
  }

  /** A string is named only by a pair whose id is its key. */
  lemma {:induction false} TouchedByKey(note: string, t: GuitarString)
    requires t in TouchedBy(note)
    ensures Key(t) in note
    decreases |note|
  {
    if t !in PairIds(note[0]) {
      TouchedByKey(note[2..], t);
      assert note[2..] <= note[2..] && Key(t) in note[2..];
    }
  }

  /** The pair cells of a track are three characters each: a value
      followed by two dashes. */
  lemma {:induction false} PairsGainCells(note: string, s: GuitarString, i: nat)
    requires i < |PairsGain(note, s)| && i % 3 != 0
    ensures PairsGain(note, s)[i] == '-'
    decreases |note|
  {
    var c := PairCell(note[0], note[1], s);
    if i >= |c| {
      PairsGainCells(note[2..], s, i - |c|);
    }
  }

  /** Scanning an even-length text and then another text is scanning
      their concatenation. */
  lemma {:induction false} PairsGainConcat(x: string, y: string, s: GuitarString)
    requires |x| % 2 == 0
    ensures PairsGain(x + y, s) == PairsGain(x, s) + PairsGain(y, s)
    ensures TouchedBy(x + y) == TouchedBy(x) + TouchedBy(y)
    decreases |x|
  {
    if x == [] {
      assert x + y == y;
    } else {
      assert (x + y)[2..] == x[2..] + y;
      PairsGainConcat(x[2..], y, s);
      AppendAssoc(PairCell(x[0], x[1], s), PairsGain(x[2..], s), PairsGain(y, s));
    }
  }

  lemma AppendAssoc(a: string, b: string, c: string)
    ensures a + (b + c) == (a + b) + c
  {
  }

  /** A trailing odd character is never read as a string id. */
  lemma {:induction false} TrailingCharIgnored(x: string, c: char, s: GuitarString)
    requires |x| % 2 == 0
    ensures PairsGain(x + [c], s) == PairsGain(x, s)
    ensures TouchedBy(x + [c]) == TouchedBy(x)
    decreases |x|
  {
    if x != [] {
      assert (x + [c])[2..] == x[2..] + [c];
      TrailingCharIgnored(x[2..], c, s);
    }
  }

  /** A pair p whose id is the key of s adds exactly its value and two
      dashes to the track of s, wherever it stands, and nothing to the
      other tracks. */
  lemma KnownPairAppends(x: string, p: string, y: string, s: GuitarString, t: GuitarString)
    requires |x| % 2 == 0 && |p| == 2 && p[0] == Key(s)
    ensures PairsGain(x + p + y, s) == PairsGain(x, s) + Cell(p[1]) + PairsGain(y, s)
    ensures t != s ==> PairsGain(x + p + y, t) == PairsGain(x + y, t)
    ensures TouchedBy(x + p + y) == TouchedBy(x + y) + {s}
  {
    KnownPairOwn(x, p, y, s);
    if t != s {
      KnownPairOther(x, p, y, s, t);
    }
  }

  lemma KnownPairOwn(x: string, p: string, y: string, s: GuitarString)
    requires |x| % 2 == 0 && |p| == 2 && p[0] == Key(s)
    ensures PairsGain(x + p + y, s) == PairsGain(x, s) + Cell(p[1]) + PairsGain(y, s)
    ensures TouchedBy(x + p + y) == TouchedBy(x + y) + {s}
  {
    KnownPair(p, s, s);
    PairInsert(x, p, y, s);
  }

  lemma KnownPairOther(x: string, p: string, y: string, s: GuitarString, t: GuitarString)
    requires |x| % 2 == 0 && |p| == 2 && p[0] == Key(s) && t != s
    ensures PairsGain(x + p + y, t) == PairsGain(x + y, t)
  {
    KnownPair(p, s, t);
    PairInsert(x, p, y, t);
  }

  lemma KnownPair(p: string, s: GuitarString, t: GuitarString)
    requires |p| == 2 && p[0] == Key(s)
    ensures PairsGain(p, t) == if t == s then Cell(p[1]) else []
    ensures TouchedBy(p) == {s}
  {
    assert IdOf(Key(s)) == Some(s) && p[2..] == [];
  }

  /** Scanning x, then a pair p, then y. */
  lemma PairInsert(x: string, p: string, y: string, s: GuitarString)
    requires |x| % 2 == 0 && |p| == 2
    ensures PairsGain(x + p + y, s) == PairsGain(x, s) + PairsGain(p, s) + PairsGain(y, s)
    ensures PairsGain(x + y, s) == PairsGain(x, s) + PairsGain(y, s)
    ensures TouchedBy(x + p + y) == TouchedBy(x) + TouchedBy(p) + TouchedBy(y)
    ensures TouchedBy(x + y) == TouchedBy(x) + TouchedBy(y)
  {
    assert x + p + y == x + (p + y);
    PairsGainConcat(p, y, s);
    PairsGainConcat(x, p + y, s);
    PairsGainConcat(x, y, s);
    AppendAssoc(PairsGain(x, s), PairsGain(p, s), PairsGain(y, s));
  }

  /** A pair whose id is not in the note map changes nothing. */
  lemma UnknownPairIgnored(x: string, p: string, y: string, s: GuitarString)
    requires |x| % 2 == 0 && |p| == 2 && IdOf(p[0]).None?
    ensures PairsGain(x + p + y, s) == PairsGain(x + y, s)
    ensures TouchedBy(x + p + y) == TouchedBy(x + y)
  {
    UnknownPair(p, s);
    PairInsert(x, p, y, s);
  }

  lemma UnknownPair(p: string, s: GuitarString)
    requires |p| == 2 && IdOf(p[0]).None?
    ensures PairsGain(p, s) == [] && TouchedBy(p) == {}
  {
    assert p[2..] == [];
  }

  /** The scan of the first i + 2 characters is the scan of the first i
      followed by the pair at i. */
  lemma ScanStep(note: string, i: nat)
    requires i % 2 == 0 && i + 1 < |note|
    ensures forall s :: PairsGain(note[..i + 2], s) == PairsGain(note[..i], s) + PairCell(note[i], note[i + 1], s)
    ensures TouchedBy(note[..i + 2]) == TouchedBy(note[..i]) + PairIds(note[i])
  {
    var p := [note[i], note[i + 1]];
    assert note[..i + 2] == note[..i] + p;
    assert p[2..] == [];
    forall s ensures PairsGain(note[..i + 2], s) == PairsGain(note[..i], s) + PairCell(note[i], note[i + 1], s) {
      PairsGainConcat(note[..i], p, s);
    }
    PairsGainConcat(note[..i], p, HighE);
  }

  /** When the scan stops, at most one trailing character is left unread. */
  lemma ScanEnd(note: string, i: nat)
    requires i % 2 == 0 && i <= |note| && i + 1 >= |note|
    ensures forall s :: PairsGain(note[..i], s) == PairsGain(note, s)
    ensures TouchedBy(note[..i]) == TouchedBy(note)
  {
    if i < |note| {
      assert note == note[..i] + [note[i]];
      forall s ensures PairsGain(note[..i], s) == PairsGain(note, s) {
        TrailingCharIgnored(note[..i], note[i], s);
      }
      TrailingCharIgnored(note[..i], note[i], HighE);
    } else {
      assert note[..i] == note;
    }
  }

  // ---------------------------------------------------------------------
  // Properties of one token

  /** A token not starting with 'z': every unnamed track gains exactly
      "---", every named one three characters per pair naming it. */
  lemma PlainTokenGain(note: string, s: GuitarString)
    requires |note| > 0 && note[0] != 'z'
    ensures TokenOutcome(note) == Pass
    ensures NamingIn(note, s) == 0 ==> TokenGain(note, s) == Beat
    ensures NamingIn(note, s) > 0 ==> |TokenGain(note, s)| == 3 * NamingIn(note, s)
  {
    PairsGainShape(note, s);
    if NamingIn(note, s) == 0 {
      assert PairsGain(note, s) == [];
    }
  }

  /** Lock-step: a plain token naming each string at most once makes all
      six tracks grow by exactly three characters. */
  lemma PlainLockStep(note: string)
    requires |note| > 0 && note[0] != 'z'
    requires forall s :: NamingIn(note, s) <= 1
    ensures forall s :: |TokenGain(note, s)| == 3
    ensures Aligned(note)
  {
    forall s ensures |TokenGain(note, s)| == 3 {
      PlainTokenGain(note, s);
    }
  }

  /** A 'z' token with a digit n: the leading ('z', n) pair is itself
      ignored, every unnamed track gains exactly n dashes, every named one
      three characters per pair naming it. */
  lemma RestTokenGain(note: string, s: GuitarString)
    requires |note| >= 2 && note[0] == 'z' && IsDigit(note[1])
    ensures TokenOutcome(note) == Pass
    ensures PairsGain(note, s) == PairsGain(note[2..], s)
    ensures TouchedBy(note) == TouchedBy(note[2..])
    ensures NamingIn(note, s) == 0 ==> TokenGain(note, s) == Dashes(DigitValue(note[1]))
    ensures NamingIn(note, s) > 0 ==> |TokenGain(note, s)| == 3 * NamingIn(note, s)
  {
    assert IdOf(note[0]).None?;
    PairsGainShape(note, s);
    if NamingIn(note, s) == 0 {
      assert PairsGain(note, s) == [];
    }
  }

  /** On an error no rest is written: a failing token adds only the cells
      of its pairs. */
  lemma FailedTokenGain(note: string, s: GuitarString)
    requires TokenOutcome(note).Fail?
    ensures TokenGain(note, s) == PairsGain(note, s)
  {
    if s !in TouchedBy(note) {
      assert RestFill(note).Failure?;
    }
  }

  /** A token that raises, or that names every string, adds only the
      cells of its pairs. */
  lemma UnpaddedGain(note: string)
    requires TokenOutcome(note).Fail? || TouchedBy(note) == AllStringSet
    ensures forall s :: TokenGain(note, s) == PairsGain(note, s)
  {
    forall s ensures TokenGain(note, s) == PairsGain(note, s) {
      if TokenOutcome(note).Fail? {
        FailedTokenGain(note, s);
      } else {
        InAllStrings(s);
      }
    }
  }

  /** A token whose rest is fill adds the cells of its pairs, then fill to
      every track no pair named. */
  lemma PaddedGain(note: string, fill: string)
    requires RestFill(note) == Success(fill)
    ensures forall s, base :: base + PairsGain(note, s) + (if s in TouchedBy(note) then [] else fill) ==
                              base + TokenGain(note, s)
  {
    forall s, base ensures base + PairsGain(note, s) + (if s in TouchedBy(note) then [] else fill) ==
                           base + TokenGain(note, s) {
      AppendAssoc(base, PairsGain(note, s), if s in TouchedBy(note) then [] else fill);
    }
  }

  /** Where the columns drift: "z2e5" gives high e a three-character cell
      and every other string two dashes. */
  lemma RestDrift()
    ensures TokenGain("z2e5", HighE) == "5--"
    ensures TokenGain("z2e5", B) == "--"
    ensures !Aligned("z2e5")
  {
    var note := "z2e5";
    RestTokenGain(note, HighE);
    RestTokenGain(note, B);
    assert note[2..] == "e5";
    assert IdOf(note[2..][0]) == Some(HighE);
    assert PairsGain(note[2..], HighE) == "5--";
    assert PairsGain(note[2..], B) == [];
    assert NamingIn(note, HighE) == 1;
    PairsGainShape(note, B);
  }

  // ---------------------------------------------------------------------
  // Properties of a batch

  /** The batch stops at its first failing token: the tokens before it
      stay applied, the pair cells of the failing token stay applied, and
      nothing after it is read. */
  lemma {:induction false} BatchStopsAtFailure(notes: seq<string>, j: nat, s: GuitarString)
    requires j < |notes|
    requires BatchOutcome(notes[..j]) == Pass && TokenOutcome(notes[j]).Fail?
    ensures BatchOutcome(notes) == TokenOutcome(notes[j])
    ensures BatchGain(notes, s) == BatchGain(notes[..j], s) + PairsGain(notes[j], s)
  {
    var prefix := notes[..|notes| - 1];
    if |notes| == j + 1 {
      assert prefix == notes[..j];
      FailedTokenGain(notes[j], s);
    } else {
      assert prefix[..j] == notes[..j] && prefix[j] == notes[j];
      BatchStopsAtFailure(prefix, j, s);
    }
  }

  /** Once a prefix of the batch has failed, the rest of the batch is
      never read. */
  lemma {:induction false} BatchRest(notes: seq<string>, j: nat, s: GuitarString)
    requires j <= |notes|
    requires j < |notes| ==> BatchOutcome(notes[..j]).Fail?
    ensures BatchOutcome(notes) == BatchOutcome(notes[..j])
    ensures BatchGain(notes, s) == BatchGain(notes[..j], s)
  {
    if j == |notes| {
      assert notes[..j] == notes;
    } else {
      var prefix := notes[..|notes| - 1];
      assert prefix[..j] == notes[..j];
      BatchRest(prefix, j, s);
    }
  }

  /** Whatever happens later in the batch, each track starts with what
      the first token gave it: later tokens only append. */
  lemma {:induction false} BatchGainFirst(notes: seq<string>, j: nat, s: GuitarString)
    requires 0 < j <= |notes|
    ensures TokenGain(notes[0], s) <= BatchGain(notes[..j], s) <= BatchGain(notes, s)
  {
    if j == |notes| {
      assert notes[..j] == notes;
      if j == 1 {
        assert notes[..0] == [];
      } else {
        var prefix := notes[..|notes| - 1];
        assert prefix[..1] == notes[..1];
        BatchGainFirst(prefix, 1, s);
      }
    } else {
      var prefix := notes[..|notes| - 1];
      assert prefix[..j] == notes[..j];
      BatchGainFirst(prefix, j, s);
    }
  }

  /** One more token after a batch prefix that raised nothing. */
  lemma BatchStep(notes: seq<string>, j: nat)
    requires j < |notes| && BatchOutcome(notes[..j]) == Pass
    ensures BatchOutcome(notes[..j + 1]) == TokenOutcome(notes[j])
    ensures forall s :: BatchGain(notes[..j + 1], s) == BatchGain(notes[..j], s) + TokenGain(notes[j], s)
  {
    assert notes[..j + 1][..j] == notes[..j];
  }

  lemma BatchRestAll(notes: seq<string>, j: nat)
    requires j <= |notes|
    requires j < |notes| ==> BatchOutcome(notes[..j]).Fail?
    ensures BatchOutcome(notes) == BatchOutcome(notes[..j])
    ensures forall s :: BatchGain(notes, s) == BatchGain(notes[..j], s)
  {
    forall s ensures BatchGain(notes, s) == BatchGain(notes[..j], s) {
      BatchRest(notes, j, s);
    }
    BatchRest(notes, j, HighE);
  }

  /** A batch that raises nothing and whose every token is aligned keeps
      all six tracks in lock-step. */
  lemma {:induction false} BatchAligned(notes: seq<string>, s: GuitarString, t: GuitarString)
    requires BatchOutcome(notes) == Pass
    requires forall i :: 0 <= i < |notes| ==> Aligned(notes[i])
    ensures |BatchGain(notes, s)| == |BatchGain(notes, t)|
  {
    if notes != [] {
      var prefix := notes[..|notes| - 1];
      assert Aligned(notes[|notes| - 1]);
      BatchAligned(prefix, s, t);
    }
  }

  // ---------------------------------------------------------------------
  // The line itself

  class TranscriptionLine {
    var highENotes: string
    var bNotes: string
    var gNotes: string
    var dNotes: string
    var aNotes: string
    var lowENotes: string

    /** A line whose six tracks hold only their letter, a bar and "--". */
    constructor ()
      ensures forall s :: Track(s) == InitialTrack(s)
    {
      highENotes := "E|" + "--";
      bNotes := "B|" + "--";
      gNotes := "G|" + "--";
      dNotes := "D|" + "--";
      aNotes := "A|" + "--";
      lowENotes := "E|" + "--";
    }

    /** The track of one string. */
    function Track(s: GuitarString): string
      reads this
    {
      match s
      case HighE => highENotes
      case B => bNotes
      case G => gNotes
      case D => dNotes
      case A => aNotes
      case LowE => lowENotes
    }

    /** The six tracks, high e first and low E last. */
    function Notes(): (r: seq<string>)
      reads this
      ensures |r| == |AllStrings|
      ensures forall s :: r[Index(s)] == Track(s)
    {
      [highENotes, bNotes, gNotes, dNotes, aNotes, lowENotes]
    }

    /** Appends text to the track of one string and leaves the others. */
    method Append(s: GuitarString, x: string)
      modifies this
      ensures Track(s) == old(Track(s)) + x
      ensures forall t :: t != s ==> Track(t) == old(Track(t))
    {
      match s
      case HighE => highENotes := highENotes + x;
      case B => bNotes := bNotes + x;
      case G => gNotes := gNotes + x;
      case D => dNotes := dNotes + x;
      case A => aNotes := aNotes + x;
      case LowE => lowENotes := lowENotes + x;
    }

    /** The pair scan of one token: returns the strings it named. */
    method AddPairs(note: string) returns (updated: set<GuitarString>)
      modifies this
      ensures updated == TouchedBy(note)
      ensures forall s :: Track(s) == old(Track(s)) + PairsGain(note, s)
    {
      updated := {};
      var i := 0;
      while i + 1 < |note|
        invariant i % 2 == 0 && i <= |note|
        invariant updated == TouchedBy(note[..i])
        invariant forall s :: Track(s) == old(Track(s)) + PairsGain(note[..i], s)
      {
        var stringId := note[i];
        var value := note[i + 1];
        ScanStep(note, i);
        match IdOf(stringId) {
          case Some(s) =>
            Append(s, Cell(value));
            updated := updated + {s};
          case None =>
        }
        i := i + 2;
      }
      ScanEnd(note, i);
    }

    /** Gives every string not in `updated` the same rest. */
    method PadUntouched(updated: set<GuitarString>, fill: string)
      modifies this
      ensures forall s :: Track(s) == old(Track(s)) + if s in updated then [] else fill
    {
      var i := 0;
      while i < |AllStrings|
        invariant 0 <= i <= |AllStrings|
        invariant forall s :: Index(s) < i && s !in updated ==> Track(s) == old(Track(s)) + fill
        invariant forall s :: Index(s) >= i || s in updated ==> Track(s) == old(Track(s))
      {
        var key := AllStrings[i];
        assert Index(key) == i;
        if key !in updated {
          Append(key, fill);
        }
        i := i + 1;
      }
    }

    /** Processes one token. */
    method AddNote(note: string) returns (outcome: Outcome)
      modifies this
      ensures outcome == TokenOutcome(note)
      ensures forall s :: Track(s) == old(Track(s)) + TokenGain(note, s)
    {
      var updated := AddPairs(note);
      if |note| == 0 {
        UnpaddedGain(note);
        return Fail(EmptyToken);
      }
      if note[0] == 'z' {
        // `int(note[1])` is evaluated at the first string left unnamed,
        // before any rest is written, and not at all if none is.
        if updated != AllStringSet {
          if |note| < 2 {
            UnpaddedGain(note);
            return Fail(MissingRestLength);
          }
          if !IsDigit(note[1]) {
            UnpaddedGain(note);
            return Fail(BadRestLength(note[1]));
          }
          PaddedGain(note, Dashes(DigitValue(note[1])));
          PadUntouched(updated, Dashes(DigitValue(note[1])));
        } else {
          UnpaddedGain(note);
        }
      } else {
        PaddedGain(note, Beat);
        PadUntouched(updated, Beat);
      }
      outcome := Pass;
    }

    /** Processes a batch of tokens in order. Tracks only ever grow; on an
        error the batch stops and what was written stays. */
    method AddNotes(notes: seq<string>) returns (outcome: Outcome)
      modifies this
      ensures outcome == BatchOutcome(notes)
      ensures forall s :: Track(s) == old(Track(s)) + BatchGain(notes, s)
      ensures forall s :: old(Track(s)) <= Track(s)
    {
      outcome := Pass;
      var j := 0;
      while j < |notes| && outcome.Pass?
        invariant 0 <= j <= |notes|
        invariant outcome == BatchOutcome(notes[..j])
        invariant forall s :: Track(s) == old(Track(s)) + BatchGain(notes[..j], s)
      {
        outcome := AddNote(notes[j]);
        BatchStep(notes, j);
        j := j + 1;
      }
      BatchRestAll(notes, j);
    }
  }
}
