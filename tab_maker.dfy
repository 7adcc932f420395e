/** A whole tab: a header built once from the song's tempo, capo and notes,
    then the lines of tablature in the order they were added. */
module Tabs {
  import opened Notation
  import opened Transcription

  // ---------------------------------------------------------------------
  // Decimal rendering of the tempo (Python's str() of an int)

  /** The decimal digits of n, without leading zeros. */
  function NatDigits(n: nat): (r: string)
    ensures |r| > 0 && forall i :: 0 <= i < |r| ==> IsDigit(r[i])
    ensures |r| == 1 <==> n < 10
    ensures |r| > 1 ==> r[0] != '0'
    decreases n
  {
    if n < 10 then [DigitChar(n)] else NatDigits(n / 10) + [DigitChar(n % 10)]
  }

  /** The number a string of decimal digits denotes. */
  function DigitsValue(s: string): nat
    requires forall i :: 0 <= i < |s| ==> IsDigit(s[i])
  {
    if s == [] then 0 else DigitsValue(s[..|s| - 1]) * 10 + DigitValue(s[|s| - 1])
  }

  lemma {:induction false} NatDigitsValue(n: nat)
    ensures DigitsValue(NatDigits(n)) == n
    decreases n
  {
    if n >= 10 {
      var r := NatDigits(n);
      assert r[..|r| - 1] == NatDigits(n / 10);
      NatDigitsValue(n / 10);
    }
  }

  predicate AllDigits(s: string)
  {
    forall i :: 0 <= i < |s| ==> IsDigit(s[i])
  }

  /** Reads back an optionally negative decimal number. */
  function ParseDecimal(s: string): Option<int>
  {
    if |s| > 1 && s[0] == '-' && AllDigits(s[1..]) then Some(0 - DigitsValue(s[1..]))
    else if |s| > 0 && AllDigits(s) then Some(DigitsValue(s))
    else None
  }

  /** How an int is written in the header: a minus sign for a negative
      number, then its digits. */
  function Decimal(n: int): (r: string)
    ensures ParseDecimal(r) == Some(n)
    ensures |r| > 0 && (r[0] == '-' <==> n < 0)
    ensures |r| > 1 && r[0] != '-' ==> r[0] != '0'
    ensures n < 0 ==> r[1] != '0'
  {
    if n < 0 then
      NatDigitsValue(-n);
      LeadThen("-", NatDigits(-n));
      "-" + NatDigits(-n)
    else
      NatDigitsValue(n);
      NatDigits(n)
  }

  // ---------------------------------------------------------------------
  // The header

  const Legend: string :=
    "(/) Slide Up  (\\) Slide Down  (h) Hammer On  (p) Pull Off  (b) Bend (r) Release (v) Vibrato (x) Muted"
  const Title: string := "Tabs for Song :"
  const Disclaimer: string :=
    "^This number isn't perfect, but it's close. Play along with the song to get a better feel."

  /** Python truthiness of an optional string: present and not empty. */
  predicate Truthy(o: Option<string>)
  {
    o.Some? && o.value != ""
  }

  /** `lead + value if value else ''` */
  function OptionalLine(lead: string, o: Option<string>): (r: string)
    ensures r == [] <==> !Truthy(o)
    ensures Truthy(o) ==> lead <= r && r[|lead|..] == o.value
  {
    if Truthy(o) then LeadThen(lead, o.value); lead + o.value else ""
  }

  const TempoLead: string := "BPM : "
  const CapoLead: string := "Capo : "
  const NotesLead: string := "Notes : "

  lemma LeadThen(lead: string, rest: string)
    ensures lead <= lead + rest && (lead + rest)[|lead|..] == rest
  {
  }

  /** The six lines of the header: legend, title, tempo, capo line (empty
      when there is no capo), disclaimer, notes line (empty when there are
      no notes). */
  function HeaderLines(bpm: int, capo: Option<string>, info: Option<string>): (r: seq<string>)
    ensures |r| == 6 && r[0] == Legend && r[1] == Title && r[4] == Disclaimer
    ensures TempoLead <= r[2] && ParseDecimal(r[2][|TempoLead|..]) == Some(bpm)
    ensures r[3] == OptionalLine(CapoLead, capo) && r[5] == OptionalLine(NotesLead, info)
    ensures r[3] == [] <==> !Truthy(capo)
    ensures r[5] == [] <==> !Truthy(info)
  {
    var tempo := TempoLead + Decimal(bpm);
    LeadThen(TempoLead, Decimal(bpm));
    [Legend, Title, tempo, OptionalLine(CapoLead, capo), Disclaimer, OptionalLine(NotesLead, info)]
  }

  /** The header text (`spiel`): the six header lines, each ended by a
      line break. */
  function Header(bpm: int, capo: Option<string>, info: Option<string>): (r: string)
    ensures Legend <= r && r[|r| - 1] == '\n'
  {
    Join("\n", HeaderLines(bpm, capo, info)) + "\n"
  }

  /** The header is its six lines, each ended by a line break; a missing
      capo or notes value leaves its line empty rather than removing it. */
  lemma HeaderLayout(bpm: int, capo: Option<string>, info: Option<string>)
    ensures var l := HeaderLines(bpm, capo, info);
      Header(bpm, capo, info) ==
        l[0] + "\n" + l[1] + "\n" + l[2] + "\n" + l[3] + "\n" + l[4] + "\n" + l[5] + "\n"
  {
    JoinSix("\n", HeaderLines(bpm, capo, info));
  }

  // ---------------------------------------------------------------------
  // Joining

  /** Python's `sep.join(xs)`. */
  function Join(sep: string, xs: seq<string>): (r: string)
    ensures |xs| > 0 ==> xs[0] <= r
    ensures |xs| > 1 ==> xs[0] + sep <= r
  {
    if |xs| == 0 then []
    else if |xs| == 1 then xs[0]
    else xs[0] + sep + Join(sep, xs[1..])
  }

  /** Joining one more element adds the separator and the element. */
  lemma {:induction false} JoinAppend(sep: string, xs: seq<string>, y: string)
    requires |xs| > 0
    ensures Join(sep, xs + [y]) == Join(sep, xs) + sep + y
  {
    if |xs| > 1 {
      assert (xs + [y])[1..] == xs[1..] + [y];
      JoinAppend(sep, xs[1..], y);
    } else {
      assert (xs + [y])[1..] == [y];
    }
  }

  /** Appending one more line to the output adds a blank-line separator
      (unless it is the first line) and the line. */
  lemma OutputAppend(head: string, texts: seq<string>, x: string)
    ensures head + Join("\n\n", texts + [x]) ==
            head + Join("\n\n", texts) + (if texts == [] then "" else "\n\n") + x
  {
    if texts == [] {
      assert texts + [x] == [x];
    } else {
      JoinAppend("\n\n", texts, x);
    }
  }

  /** Joining six texts puts the separator between each two. */
  lemma JoinSix(sep: string, l: seq<string>)
    requires |l| == 6
    ensures Join(sep, l) == l[0] + sep + l[1] + sep + l[2] + sep + l[3] + sep + l[4] + sep + l[5]
  {
    assert Join(sep, l[5..]) == l[5];
    assert Join(sep, l[4..]) == l[4] + sep + l[5] by { assert l[4..][1..] == l[5..]; }
    assert Join(sep, l[3..]) == l[3] + sep + Join(sep, l[4..]) by { assert l[3..][1..] == l[4..]; }
    assert Join(sep, l[2..]) == l[2] + sep + Join(sep, l[3..]) by { assert l[2..][1..] == l[3..]; }
    assert Join(sep, l[1..]) == l[1] + sep + Join(sep, l[2..]) by { assert l[1..][1..] == l[2..]; }
  }

  /** One line of tab as text: its six tracks, one per text line. */
  function LineText(t: TranscriptionLine): string
    reads t
  {
    Join("\n", t.Notes())
  }

  /** The text of a line lists the tracks high e, B, G, D, A, low E. */
  lemma LineTextOrder(t: TranscriptionLine)
    ensures LineText(t) == t.Track(HighE) + "\n" + t.Track(B) + "\n" + t.Track(G) + "\n" +
                           t.Track(D) + "\n" + t.Track(A) + "\n" + t.Track(LowE)
  {
    JoinSix("\n", t.Notes());
  }

  function LineTexts(ls: seq<TranscriptionLine>): (r: seq<string>)
    reads ls
    ensures |r| == |ls|
  {
    if ls == [] then [] else LineTexts(ls[..|ls| - 1]) + [LineText(ls[|ls| - 1])]
  }

  /** The i-th text is the text of the i-th line. */
  lemma {:induction false} LineTextsAt(ls: seq<TranscriptionLine>, i: nat)
    requires i < |ls|
    ensures LineTexts(ls)[i] == LineText(ls[i])
  {
    if i < |ls| - 1 {
      LineTextsAt(ls[..|ls| - 1], i);
    }
  }

  lemma LineTextsAppend(ls: seq<TranscriptionLine>, t: TranscriptionLine)
    ensures LineTexts(ls + [t]) == LineTexts(ls) + [LineText(t)]
  {
    assert (ls + [t])[..|ls|] == ls;
  }

  // ---------------------------------------------------------------------
  // Saving

  /** What the file-write collaborator is handed. */
  datatype WriteRequest = WriteRequest(path: string, content: string)

  /** The guard of save_tab: a missing or empty name is refused, otherwise
      the file is the name with ".txt" appended. */
  function SavePath(filename: Option<string>): (r: Result<string>)
    ensures r.Failure? <==> !Truthy(filename)
    ensures r.Failure? ==> r.error == MissingFileName
    ensures r.Success? ==> |r.value| == |filename.value| + 4
    ensures r.Success? ==> r.value[..|filename.value|] == filename.value && r.value[|filename.value|..] == ".txt"
  {
    if !Truthy(filename) then Failure(MissingFileName) else Success(filename.value + ".txt")
  }

  // ---------------------------------------------------------------------
  // The tab

  /** A fresh line after a batch of tokens has been added to it. */
  method FilledLine(line: seq<string>) returns (t: TranscriptionLine, outcome: Outcome)
    ensures fresh(t)
    ensures outcome == BatchOutcome(line)
    ensures forall s :: t.Track(s) == InitialTrack(s) + BatchGain(line, s)
  {
    t := new TranscriptionLine();
    outcome := t.AddNotes(line);
  }

  class TabMaker {
    const bpm: int
    const capo: Option<string>
    const info: Option<string>
    const spiel: string
    var lines: seq<TranscriptionLine>

    constructor (bpm: int := 100, capo: Option<string> := None, info: Option<string> := None)
      ensures this.bpm == bpm && this.capo == capo && this.info == info
      ensures spiel == Header(bpm, capo, info)
      ensures lines == []
    {
      this.bpm := bpm;
      this.capo := capo;
      this.info := info;
      this.spiel := Header(bpm, capo, info);
      this.lines := [];
    }

    /** The whole tab as text: the header, then the lines separated by
        blank lines. Reading it changes nothing. */
    function Output(): (r: string)
      reads this, lines
      ensures spiel <= r
      ensures lines == [] ==> r == spiel
      ensures |lines| == 1 ==> r == spiel + LineText(lines[0])
    {
      spiel + Join("\n\n", LineTexts(lines))
    }

    /** Makes a new line from a batch of tokens and appends it. If a token
        raises, the line is not appended. */
    method AddLine(line: seq<string>) returns (outcome: Outcome)
      modifies this
      ensures outcome == BatchOutcome(line)
      ensures outcome.Fail? ==> lines == old(lines)
      ensures outcome.Pass? ==> |lines| == |old(lines)| + 1 && lines[..|old(lines)|] == old(lines)
      ensures outcome.Pass? ==> fresh(lines[|lines| - 1])
      ensures outcome.Pass? ==> forall s :: lines[|lines| - 1].Track(s) == InitialTrack(s) + BatchGain(line, s)
      ensures unchanged(old(lines))
      ensures outcome.Pass? ==>
        Output() == old(Output()) + (if old(lines) == [] then "" else "\n\n") + LineText(lines[|lines| - 1])
      ensures outcome.Fail? ==> Output() == old(Output())
    {
      var t;
      t, outcome := FilledLine(line);
      if outcome.Pass? {
        ghost var prev := lines;
        lines := lines + [t];
        LineTextsAppend(prev, t);
        OutputAppend(spiel, LineTexts(prev), LineText(t));
      }
    }

    /** What save_tab hands to the file-write collaborator: the path and
        the current output, or the error for a missing name. */
    function SaveTab(filename: Option<string>): (r: Result<WriteRequest>)
      reads this, lines
      ensures r.Failure? <==> !Truthy(filename)
      ensures r.Success? ==> SavePath(filename) == Success(r.value.path) && r.value.content == Output()
    {
      match SavePath(filename)
      case Success(path) => Success(WriteRequest(path, Output()))
      case Failure(e) => Failure(e)
    }
  }
}
