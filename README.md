# GuitarTabMaker in Dafny

A model of `GuitarTab.py`, a small ASCII guitar tablature builder, with proofs
about how its text tracks grow.

The program has two parts:

- **`TranscriptionLine`** holds one line of tab as six text tracks, one per
  guitar string, listed high e, B, G, D, A, low E. Each track starts as its
  display letter, a bar and `--`. High e is displayed as `E|`, like low E,
  but it is a separate track with its own note-map key `e`.
  `add_notes` takes a batch of tokens. It reads each token two characters at
  a time as (string id, value) pairs. A pair whose id is in the note map
  appends `value + "--"` to that string's track. A pair with any other id is
  skipped. Then every track that no pair named gets a rest:
  - `---` for a token that does not start with `z`;
  - for a token that does start with `z`, as many dashes as the digit
    `note[1]` says.
- **`TabMaker`** builds the header text (`spiel`) once, from the tempo and
  the optional capo and notes. `add_line` fills a fresh line with a batch and
  appends it. `output` is the header followed by the lines, separated by
  blank lines, each line's six tracks on six text lines. `save_tab` refuses a
  missing or empty file name and otherwise writes `output` to `<name>.txt`.

The model has three modules:

- `notation.dfy` (`Notation`): the six strings as a datatype, the note-map
  keys, the display letters, digits, and the errors as values.
- `transcription.dfy` (`Transcription`): pure functions that say what one
  token and one batch add to each track, and lemmas about them. Then the
  class `TranscriptionLine`, whose methods update its six fields in place and
  are proved to follow those functions.
- `tab_maker.dfy` (`Tabs`): decimal rendering of the tempo, the header,
  `Join` (Python's `str.join`), the class `TabMaker`, and the save guard.

Python exceptions become returned values: `Outcome` (`Pass` or
`Fail(error)`) and `Result`. The errors are:

- `EmptyToken`: the `IndexError` of `note[0]` on an empty token;
- `MissingRestLength`: the `IndexError` of `note[1]` on the token `z`;
- `BadRestLength`: the `ValueError` of `int(note[1])`;
- `MissingFileName`: the exception `save_tab` raises.

Details of the behaviour worth knowing:

- Appended cells are three characters wide (`value + '--'` and `'---'`);
  the base cell of a fresh track is `--`. The lock-step lemmas therefore
  say "three characters".
- In a `z` token, `int(note[1])` runs inside the loop over unnamed strings.
  So a `z` token whose pairs name all six strings never reads its rest
  length and never fails. `TokenOutcome` says so.
- When a token fails, the cells its pairs already appended stay in place.
  So do the effects of the tokens before it. `add_line` then raises before
  the append, so the tab gains no line.
- The header ends with a single line break after the notes line. When
  there are no notes, that line is empty, so the output looks as if a blank
  line follows the header.

## Model

| member | source | states |
|---|---|---|
| `Notation.IdOf` | GuitarTab.py:35-42 | the note map: a character maps to a string exactly when it is that string's key; every other character (including `z`) maps to nothing |
| `Notation.Index` | GuitarTab.py:26 | each string has a fixed position in the order high e, B, G, D, A, low E |
| `Notation.Key` | GuitarTab.py:35-42 | the note-map key of each string; no key is `z`, so a rest marker never names a string |
| `Notation.Prefix` | GuitarTab.py:12-17 | the display letter of each track; it equals the string's key for every string except high e, whose key is `e` but which is displayed as `E` |
| `Notation.SharedLetterDistinctKeys` | GuitarTab.py:12-17 | high e and low E share the display letter `E` but are distinct strings with distinct keys `e` and `E` |
| `Notation.DigitValue` | GuitarTab.py:66 | `int()` of a one-digit string is below 10 and converts back to the same digit |
| `Notation.Dashes` | GuitarTab.py:66 | `'-' * n` has length n and holds only dashes |
| `Transcription.InitialTrack` | GuitarTab.py:12-17 | a fresh track is the display letter, `|` and `--` |
| `Transcription.PairsGain` | GuitarTab.py:49-59 | what the pair scan appends to one track: a whole number of three-character cells |
| `Transcription.PairsGainCells` | GuitarTab.py:58 | every pair cell is its value followed by two dashes |
| `Transcription.TouchedBy` | GuitarTab.py:46-59 | `updated_strings`: the strings named by some pair of the token |
| `Transcription.TouchedByKey` | GuitarTab.py:57-59 | a string is named only if its key occurs in the token |
| `Transcription.TouchedByBound` | GuitarTab.py:49-59 | a token names at most one string per pair |
| `Transcription.NamingIn` | GuitarTab.py:49-59 | how many pairs name a string: at most one per pair of characters, and none unless the string's key occurs in the token |
| `Transcription.RestFill` | GuitarTab.py:61-71 | the rest for unnamed tracks is `---` for a plain token and n dashes for `z` followed by digit n; it fails exactly for an empty token (`EmptyToken`), for the token `z` alone (`MissingRestLength`) and for a `z` token whose second character is not a digit (`BadRestLength` of that character) |
| `Transcription.TokenOutcome` | GuitarTab.py:44-71 | the empty token fails with `EmptyToken`; a `z` token that leaves some string unnamed and has no valid rest length fails with the rest's error; a token fails only in these cases, so a `z` token naming all six strings passes |
| `Transcription.TokenGain` | GuitarTab.py:46-71 | what one token appends to a track: the cells of its pairs first; nothing more for a named track or a failing token; otherwise the rest |
| `Transcription.BatchOutcome` | GuitarTab.py:44 | a batch fails exactly when one of its tokens fails |
| `Transcription.BatchGain` | GuitarTab.py:44-71 | what a batch appends to a track: each token's gain in order, stopping after the first token that fails |
| `Transcription.BatchGainFirst` | GuitarTab.py:44-71 | a track starts with what the first token gave it, and the gain of every prefix of the batch is a prefix of the gain of the whole batch |
| `Transcription.PairsGainShape` | GuitarTab.py:49-59 | each pair naming a string adds exactly three characters to its track; a string is in `updated_strings` exactly when some pair names it |
| `Transcription.PairsGainConcat` | GuitarTab.py:49-59 | scanning an even-length text joined to any text is scanning the first and then the second, for both the cells and the named strings |
| `Transcription.KnownPairAppends` | GuitarTab.py:51-59 | a pair whose id is the key of string s, at an even position, appends exactly its value and `--` to the track of s, adds nothing to any other track, and puts s among the named strings |
| `Transcription.UnknownPairIgnored` | GuitarTab.py:57-59 | a pair at an even position whose id is not in the note map changes no track and names no string |
| `Transcription.TrailingCharIgnored` | GuitarTab.py:49 | a trailing odd character is never read as a string id |
| `Transcription.PlainTokenGain` | GuitarTab.py:67-71 | a non-empty token not starting with `z` never fails; an unnamed track gains exactly `---`; a named track gains three characters per pair naming it |
| `Transcription.PlainLockStep` | GuitarTab.py:57-71 | a plain token naming each string at most once makes all six tracks grow by exactly three characters |
| `Transcription.RestTokenGain` | GuitarTab.py:49-66 | for `z` followed by digit n: the leading (`z`, n) pair is ignored; an unnamed track gains exactly n dashes; a named track gains three characters per pair naming it |
| `Transcription.FailedTokenGain` | GuitarTab.py:62-66 | a failing token writes no rest, only the cells of its pairs |
| `Transcription.RestDrift` | GuitarTab.py:61-66 | the columns drift for `z2e5`: high e gains `5--` and B gains `--` |
| `Transcription.BatchStopsAtFailure` | GuitarTab.py:44-66 | when token j is the first to fail, the batch fails with its error; the tokens before it stay applied; its pair cells stay applied; nothing after it is read |
| `Transcription.BatchRest` | GuitarTab.py:44 | once a prefix of the batch has failed, the rest of the batch changes nothing |
| `Transcription.BatchAligned` | GuitarTab.py:44-71 | a batch that does not fail and whose every token keeps the tracks aligned keeps all six tracks the same length |
| `Transcription.TranscriptionLine.constructor` | GuitarTab.py:6-17 | every track of a new line is its initial track |
| `Transcription.TranscriptionLine.Notes` | GuitarTab.py:19-26 | the six tracks, each at its string's position in the order e, B, G, D, A, E |
| `Transcription.TranscriptionLine.Append` | GuitarTab.py:58 | appends to one track and leaves the other five unchanged |
| `Transcription.TranscriptionLine.AddPairs` | GuitarTab.py:46-59 | the pair loop appends to each track exactly what the pair scan says, and returns the set of named strings |
| `Transcription.TranscriptionLine.PadUntouched` | GuitarTab.py:63-71 | every track not in the set gains the rest, every other track is unchanged |
| `Transcription.TranscriptionLine.AddNote` | GuitarTab.py:44-71 | one token: the outcome is `TokenOutcome` and each track gains `TokenGain` |
| `Transcription.TranscriptionLine.AddNotes` | GuitarTab.py:28-71 | a batch: the outcome is `BatchOutcome`; each track gains `BatchGain`; each old track is a prefix of the new one |
| `Tabs.NatDigits` | GuitarTab.py:91 | the decimal digits of a natural number, with no leading zero |
| `Tabs.NatDigitsValue` | GuitarTab.py:91 | the digits read back give the number |
| `Tabs.Decimal` | GuitarTab.py:91 | the tempo as the f-string writes it: a minus sign exactly for a negative number, no leading zero, and the text parses back to the tempo |
| `Tabs.OptionalLine` | GuitarTab.py:92-94 | the conditional line is empty exactly when the value is missing or empty; otherwise it is the label followed by the value |
| `Tabs.HeaderLines` | GuitarTab.py:89-94 | the header has six lines: legend, title, a tempo line that parses back to the tempo, the capo line `'Capo : ' + capo` (empty exactly when the capo is missing or empty), the disclaimer, and the notes line `'Notes : ' + info` (empty exactly when the notes are missing or empty) |
| `Tabs.Header` | GuitarTab.py:89-94 | the header starts with the legend and ends with a line break |
| `Tabs.HeaderLayout` | GuitarTab.py:89-94 | the header is its six lines, each followed by a line break, so a missing capo or notes value leaves an empty line |
| `Tabs.JoinAppend` | GuitarTab.py:116 | joining one more element adds the separator and then the element |
| `Tabs.OutputAppend` | GuitarTab.py:116 | output text with one more line adds a blank-line separator (none before the first line) and then the line |
| `Tabs.Join` | GuitarTab.py:116 | Python's `str.join`: the result starts with the first element, followed by the separator when there is more than one |
| `Tabs.JoinSix` | GuitarTab.py:26 | six texts joined put the separator between each neighbouring pair |
| `Tabs.LineText` | GuitarTab.py:116 | a line's text: its tracks joined by line breaks (content stated by `LineTextOrder`) |
| `Tabs.LineTextOrder` | GuitarTab.py:26 | a line's text is its tracks high e, B, G, D, A, low E joined by line breaks |
| `Tabs.LineTexts` | GuitarTab.py:116 | there is one text per line |
| `Tabs.LineTextsAt` | GuitarTab.py:116 | the i-th text is the text of the i-th line, so the texts keep the order of the lines |
| `Tabs.SavePath` | GuitarTab.py:125-127 | a missing or empty name fails with `MissingFileName`; otherwise the path is the name followed by `.txt` |
| `Tabs.FilledLine` | GuitarTab.py:105-106 | a fresh line after `add_notes` of the batch |
| `Tabs.TabMaker.constructor` | GuitarTab.py:78-96 | the header is built from the tempo, capo and notes; there are no lines |
| `Tabs.TabMaker.Output` | GuitarTab.py:109-116 | the output starts with the header; with no lines it is exactly the header; with one line it is the header and that line; it is a function of the state, so two reads give the same text |
| `Tabs.TabMaker.AddLine` | GuitarTab.py:98-107 | on success there is exactly one more line; the earlier lines are the same objects with unchanged tracks; the new line is fresh and equals a fresh line after `add_notes`; the output grows by a separator and the new line's text. On failure nothing changes |
| `Tabs.TabMaker.SaveTab` | GuitarTab.py:118-128 | fails exactly for a missing or empty name; otherwise hands the save path and the current output to the file writer |

## Left out

- Writing the file (`open` and `write` in `save_tab`) is I/O. `TabMaker.SaveTab` returns the path and content that would be written. A failure of the write is not modelled.
- The `seq` argument of `TranscriptionLine` has no effect and is not modelled.
- Python's lookup of fields by name (`setattr`/`getattr`) is replaced by a match on the string datatype (`Track`, `Append`).
- `Transcription.RestFill`: only `'0'`-`'9'` count as digits. Python's `int()` also accepts other Unicode decimal digits. A `z` token with such a digit fails in the model but not in Python.
- Arguments of other Python types are not modelled: tokens that are not strings, a non-integer tempo, or a capo or notes value that is not a string. For example, an integer capo makes the f-string raise `TypeError`.
- The text of the `save_tab` exception message is not modelled; the model only has the error kind.
