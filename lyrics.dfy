/** The editable word row shared by the importer and the lyrics editors
    (`models/lyrics.py`). */
module Lyrics {
  import opened Common

  datatype WordRow = WordRow(text: string, start: real, end: real, confidence: real,
                             chord: Option<string>, altText: Option<string>, altChord: Option<string>,
                             altStart: Option<real>, altEnd: Option<real>, lineBreak: bool)

  /** A row with only the required fields set, as the dataclass defaults
      leave it. */
  function Row(text: string, start: real, end: real, confidence: real): (r: WordRow)
    ensures r.text == text && r.start == start && r.end == end && r.confidence == confidence
    ensures r.chord.None? && r.altText.None? && r.altChord.None?
    ensures r.altStart.None? && r.altEnd.None? && !r.lineBreak
  {
    WordRow(text, start, end, confidence, None, None, None, None, None, false)
  }
}
