# Song Editor 3 post-processing core, in Dafny

Song Editor 3 turns a recording into an editable song. Engines produce the
raw material: Whisper backends give timed words, Chordino or a chromagram
gives chord segments and per-frame chroma, Basic Pitch or CREPE gives notes,
and Gemini gives JSON. Everything the program does with that material
afterwards is sequential logic over lists, strings, times and confidences.
This project models that logic and proves what it promises:

- attaching chords to words by midpoint and best overlap (`ui/main_window.py`);
- chord-symbol parsing, the template bank, segment merging, simplification
  and progression statistics (`core/chord_detector.py`);
- frame labelling, 7-frame majority smoothing, segmentation and the short
  merge of the frame-based detector (`processing/chords.py`);
- the melody extractor's Basic Pitch filter, CREPE note state machine,
  duration filter, note merge and sort (`core/melody_extractor.py`);
- the transcriber's prompt table, backend fallback, confidence filter and
  homophone alternatives (`core/transcriber.py`);
- the audio processor's passthroughs, 0.95 peak limiter, stem defaults and
  key/mode decision (`core/audio_processor.py`);
- the song document, the metadata and their dictionary round trips
  (`models/song_data.py`, `models/metadata.py`, `models/lyrics.py`);
- song-data import and export (`models/song_data_importer.py`);
- the JSON exporter, with its in-place repair of zero-length words
  (`export/json_exporter.py`);
- the CCLI exporter and the ChordPro-like writer (`export/ccli_exporter.py`,
  `export/ccli.py`);
- both MIDI exporters, as the message lists they build, with delta and
  `last_tick` bookkeeping (`export/midi_exporter.py`, `export/midi_export.py`);
- the list operations of the chord, melody and lyrics editors
  (`ui/chord_editor.py`, `ui/melody_editor.py`, `ui/lyrics_editor.py`);
- the enhanced lyrics editor's bracket stripping, line building, wrapping,
  line-break flags, rhyme grouping, syllable counting and rhyme search
  (`ui/enhanced_lyrics_editor.py`);
- the 20-second block view (`ui/block_view.py`);
- the sequential batch processor (`batch.py`), with the output paths printed the way pathlib parses and prints them (a "." component, a doubled slash and a trailing slash are dropped);
- the Gemini client's pure helpers and chunked analysis
  (`services/gemini_client.py`).

Each module corresponds to one source file, or to one concern of a large
file. Shared pieces are `Common` (Option, Python's `str` methods, numeric
conversions), `Json` (decoded JSON values), `Tally` (Python counting
dictionaries), `EditorList` (list insert, delete and swap as the editors use
them) and `MidiTrack` (delta-timed message lists).

Some source code changes state step by step. There the model is imperative:
a class with the source's fields, or a method whose loop carries its
invariants. Each such method is proved against a specification function,
and the properties are proved about that function. Engine outputs,
installed-package flags, clocks and Python's float/str conversions of
decoded values are parameters. Seconds and confidences are `real`.
Python's `int()` of a non-negative real is the floor.

Where a comment and the code disagree, the model follows the code:

- Chord association takes the best overlap, not the first match.
- The multi-track exporter staggers its chord note-offs.
- The frame detector's 250 ms merge never fires (`FrameChords.ShortMergeIdentity`).
- The maj7 and m7 templates reuse the triads (`ChordDetector.RichSeventhsNeverChosen`).
- The dominant-seventh template marks the major seventh (`ChordDetector.ChordTemplates`).

## Model

| member | source | states |
|---|---|---|
| ChordAssociation.BestFromSound | song_editor/ui/main_window.py:204-216 | the inner chord scan returns a winner (midpoint inside the closed span, positive overlap, strictly larger than every earlier candidate and at least every later one) or none exactly when no candidate overlaps positively |
| ChordAssociation.WinnerUnique | song_editor/ui/main_window.py:213-216 | at most one chord index wins: ties go to the earlier chord because only a strictly larger overlap replaces the best |
| ChordAssociation.AssociateWordSpec | song_editor/ui/main_window.py:200-225 | a word with a winner gets that chord's symbol and nothing else changes; with no winner it keeps its old chord; there is no winner iff no candidate has positive overlap |
| ChordAssociation.ZeroLengthWordUntouched | song_editor/ui/main_window.py:204-214 | a zero-length word never gets a chord, because its overlap is never above 0 |
| ChordAssociation.BestFromIgnoresChord | song_editor/ui/main_window.py:207-216 | the chord scan reads only the word's times, never its current chord |
| ChordAssociation.AssociateWordIdempotent | song_editor/ui/main_window.py:200-225 | associating twice equals associating once, and only `chord` changes |
| ChordAssociation.AssociateChordsWithWords | song_editor/ui/main_window.py:195-225 | the in-place loop leaves every word equal to its association, and an empty chord list leaves the words unchanged |
| AudioProcessing.Scale | song_editor/core/audio_processor.py:215 | scaling a signal keeps its length and multiplies every sample by the factor |
| AudioProcessing.Denoise | song_editor/core/audio_processor.py:179-206 | the input comes back unchanged when noisereduce is missing or raises; otherwise the reduced signal |
| AudioProcessing.Peak | song_editor/core/audio_processor.py:236 | the peak is defined exactly for a non-empty signal and is never negative |
| AudioProcessing.PeakBounds | song_editor/core/audio_processor.py:236 | no sample exceeds the peak in magnitude, and some sample reaches it |
| AudioProcessing.Limit | song_editor/core/audio_processor.py:235-238 | the clipping guard keeps the length; a signal peaking at most 0.95 is untouched, a louder one is scaled by 0.95 over its peak |
| AudioProcessing.ScaledWithin | song_editor/core/audio_processor.py:237-238 | scaling by q keeps samples within m·q, and the sample that reached m reaches m·q |
| AudioProcessing.PeakUnique | song_editor/core/audio_processor.py:236 | a bound respected by all samples and reached by one is the peak |
| AudioProcessing.ScaledToCeiling | song_editor/core/audio_processor.py:237-238 | rescaling a too-loud signal by 0.95 over its peak makes the peak exactly 0.95 |
| AudioProcessing.LimitBounds | song_editor/core/audio_processor.py:235-238 | after the guard no sample exceeds 0.95, and a too-loud signal peaks at exactly 0.95 |
| AudioProcessing.LimitIdempotent | song_editor/core/audio_processor.py:235-238 | applying the guard twice equals applying it once |
| AudioProcessing.Normalize | song_editor/core/audio_processor.py:208-249 | without pyloudnorm the signal is scaled by 0.1/(rms + 1e-10); a failed meter returns the input; otherwise gain then guard; the length never changes |
| AudioProcessing.NormalizedPeak | song_editor/core/audio_processor.py:228-249 | with pyloudnorm the result peaks at most 0.95 unless the meter failed and the input came back |
| AudioProcessing.Separate | song_editor/core/audio_processor.py:251-290 | Demucs' stems when the separator is ready and succeeds; otherwise the input as both vocals and accompaniment |
| AudioProcessing.GetStem | song_editor/core/audio_processor.py:350-351 | `dict.get`: the stem when present, the default otherwise |
| AudioProcessing.Tonic | song_editor/core/audio_processor.py:128 | the tonic is a bin of maximal weight, the first such bin |
| AudioProcessing.DetectKey | song_editor/core/audio_processor.py:117-145 | the key names the tonic; the mode is major iff the major score is strictly larger (ties go to minor); a confidence exists iff the profile's total is non-zero |
| AudioProcessing.MajorScoreTerms | song_editor/core/audio_processor.py:133-136 | the major score sums the bins at degrees 0, 2, 4, 5, 7, 9, 11 above the tonic |
| AudioProcessing.MinorScoreTerms | song_editor/core/audio_processor.py:134-137 | the minor score sums the bins at degrees 0, 2, 3, 5, 7, 8, 10 above the tonic |
| AudioProcessing.ModeByCharacteristicDegrees | song_editor/core/audio_processor.py:133-139 | the mode is major iff degrees 4, 9 and 11 outweigh degrees 3, 8 and 10 (the shared degrees cancel) |
| AudioProcessing.ScoreAtMostTotal | song_editor/core/audio_processor.py:136-144 | on a non-negative profile each scale score is at most the total energy |
| AudioProcessing.KeyConfidenceBounds | song_editor/core/audio_processor.py:144 | on a non-negative profile with energy the confidence lies in [0, 1] |
| AudioProcessing.DetectKeySafe | song_editor/core/audio_processor.py:117-149 | a key result exists iff the chroma engine succeeded, and it is then DetectKey of the profile |
| AudioProcessing.AudioProcessor.constructor | song_editor/core/audio_processor.py:46-77 | Demucs is used only when requested, installed and its separator initialised; the settings are stored |
| AudioProcessing.AudioProcessor.Process | song_editor/core/audio_processor.py:325-383 | the audio is denoised then normalised; missing stems default to the normalised audio; the analysis records duration, rate, one channel, tempo and key |
| Batch.Suffix | song_editor/batch.py:78 | `Path.suffix` is empty or starts with a dot |
| Batch.StemSuffix | song_editor/batch.py:78 | the stem followed by the suffix is the last path component |
| Batch.Parts | song_editor/batch.py:100 | pathlib's parse keeps only components that are non-empty, not "." and free of slashes |
| Batch.Root | song_editor/batch.py:100 | a POSIX root is "", "/" or "//" |
| Batch.FormatParses | song_editor/batch.py:121-131 | parsing what `str()` prints for a root and components gives them back |
| Batch.NormalizeParses | song_editor/batch.py:100 | `str(Path(p))` has the same root and components as p |
| Batch.NormalizeIdempotent | song_editor/batch.py:100 | printing an already printed path changes nothing |
| Batch.ParentParts | song_editor/batch.py:100 | `Path(p).parent` has p's components but the last, and p's root |
| Batch.PathJoinParts | song_editor/batch.py:100 | `Path(dir) / name` for a plain file name adds the name as the last component, keeps dir's root and ends with the name |
| Batch.PathJoinInjective | song_editor/batch.py:100 | in one directory, different names give different paths |
| Batch.DotOutputDir | song_editor/batch.py:121-123 | a leading "./" is dropped: `Path("./d") / n` prints "d/n" |
| Batch.DoubledSlash | song_editor/batch.py:121 | a doubled slash between two components prints as one |
| Batch.TrailingSlash | song_editor/batch.py:121 | a trailing slash is dropped |
| Batch.OutputDirDotListed | song_editor/batch.py:119-125 | with `--output-dir ./d` the first output listed is "d/<stem>.song_data.json" |
| Batch.OutputPathInjective | song_editor/batch.py:121-131 | two name endings give the same output path only when they are the same |
| Batch.Audio | song_editor/batch.py:76-79 | the directory walk never keeps more entries than it visits |
| Batch.AudioMembers | song_editor/batch.py:76-79 | a path is kept iff the walk visits it and it is a regular file with an audio extension |
| Batch.Listed | song_editor/batch.py:56-59 | the file-list branch never keeps more paths than it has lines |
| Batch.ListedValid | song_editor/batch.py:57-59 | every path the file list yields is non-empty and a valid audio file |
| Batch.AudioFiles | song_editor/batch.py:49-81 | an unreadable file list, a missing input directory, or neither source gives no files |
| Batch.AudioFilesValid | song_editor/batch.py:49-81 | whatever the source, every file picked is a valid audio file |
| Batch.ScanDirectory | song_editor/batch.py:76-79 | the walk loop collects exactly the audio files of the directory, in walk order |
| Batch.OutputFiles | song_editor/batch.py:119-131 | a processed file lists 3 outputs, or 5 with intermediates; the first is its song-data file; each is the stem plus a fixed tail in the output directory |
| Batch.OutputFilesDistinct | song_editor/batch.py:119-131 | the listed outputs never name the same file twice |
| Batch.ProcessSingleFile | song_editor/batch.py:83-140 | the result names its file; it is skipped iff overwrite is off and the song-data file exists, and a skip counts as success with no outputs; otherwise success is the run's answer, and a raised error is recorded as a failure |
| Batch.Results | song_editor/batch.py:164-167 | the sequential branch produces one result per file |
| Batch.ResultsAt | song_editor/batch.py:164-167 | result i is the single-file result of file i |
| Batch.WithSuccess | song_editor/batch.py:169-172 | a success or failure list is no longer than the results |
| Batch.WithSuccessSnoc | song_editor/batch.py:169-172 | one more result extends exactly the list its success picks |
| Batch.SplitAccounts | song_editor/batch.py:169-172 | every result lands in exactly one of the two lists |
| Batch.NoFailures | song_editor/batch.py:211 | no failure is listed exactly when every result succeeded |
| Batch.BatchProcessor.constructor | song_editor/batch.py:23-41 | the processor keeps its sources and options and starts with empty success and failure lists |
| Batch.BatchProcessor.ProcessBatch | song_editor/batch.py:142-220 | no files gives the failure summary and no changes; otherwise the lists grow by the successes and failures in order, and the summary counts the files and both lists |
| Batch.BatchProcessor.GetAudioFiles | song_editor/batch.py:49-81 | the method returns the files the specification function picks |
| Batch.BatchProcessor.ProcessAll | song_editor/batch.py:162-172 | the sequential loop returns every file's result and appends each file to the list its success picks |
| Batch.FreshSummary | song_editor/batch.py:209-215 | on a fresh processor the successes and failures add up to the file count, and the run reports success iff every file succeeded |
| BlockView.MaxEnd | song_editor/ui/block_view.py:478 | the total duration bounds every word's end and is reached by one of them |
| BlockView.BlockCount | song_editor/ui/block_view.py:484 | `range(0, int(total) + 1, 20)` yields exactly the multiples of 20 up to the truncated total |
| BlockView.Within | song_editor/ui/block_view.py:488 | a block keeps exactly the words lying wholly inside its span, never more than it was given |
| BlockView.FirstCovering | song_editor/ui/block_view.py:495-499 | the chord scan stops at the first chord whose closed span holds the time, or finds none when no chord holds it |
| BlockView.Recolor | song_editor/ui/block_view.py:492-499 | a block word takes the name of the first chord holding its midpoint, keeps its chord when none does, and nothing else changes |
| BlockView.Recolored | song_editor/ui/block_view.py:492-499 | every block word is recoloured in place, keeping the count and order |
| BlockView.RecolorIdempotent | song_editor/ui/block_view.py:492-499 | recolouring twice equals recolouring once, because only the word's times decide |
| BlockView.ChordNames | song_editor/ui/block_view.py:505-507 | only set, non-empty chords are counted |
| BlockView.LocalChordSpec | song_editor/ui/block_view.py:503-509 | the block chord is "" exactly when no word has a chord, and otherwise a most frequent chord, the first seen among equals |
| BlockView.Blocks | song_editor/ui/block_view.py:472-522 | one block per 20-second start, block i built from its span |
| BlockView.BlocksLayout | song_editor/ui/block_view.py:484-485 | blocks start at 0, 20, 40 … no later than the total, end at the earlier of 20 s on and the total, and never overlap |
| BlockView.BlockWords | song_editor/ui/block_view.py:488-519 | block i holds the recoloured words lying inside it and their most common chord |
| BlockView.StraddlerInNoBlock | song_editor/ui/block_view.py:488 | a word crossing a 20-second boundary lands in no block |
| BlockView.DisplayPieces | song_editor/ui/block_view.py:125-139 | one display piece per word |
| BlockView.BuildDisplayText | song_editor/ui/block_view.py:115-141 | the `set_lyrics` loop builds the space-joined pieces: text, "[chord]" when it differs from the previous word's, "<alt>" when set |
| BlockView.ShownChordIsOwn | song_editor/ui/block_view.py:130-132 | hiding repeated chords loses nothing: the chord last shown at or before a word with a chord is its own |
| BlockView.FirstSpan | song_editor/ui/block_view.py:391-395 | the first span whose closed range holds the position, or none |
| BlockView.MappedPieces | song_editor/ui/block_view.py:377-388 | one measured piece per word |
| BlockView.FindWordAtPosition | song_editor/ui/block_view.py:368-395 | the word found is the first whose measured span (text plus a changed chord, no alternative) holds the position |
| BlockView.SearchSpans | song_editor/ui/block_view.py:391-395 | the second loop returns the first span holding the position |
| BlockView.WordTexts | song_editor/ui/block_view.py:377-388 | the first loop measures each word's text plus "[chord]" when it changed |
| BlockView.Spans | song_editor/ui/block_view.py:373-387 | each span starts at the sum of the earlier pieces plus one space each, and ends after the piece |
| BlockView.JoinAt | song_editor/ui/block_view.py:141 | piece k sits at its offset in the space-joined text |
| BlockView.OffsetGrows | song_editor/ui/block_view.py:387 | an earlier piece ends strictly before a later one starts |
| BlockView.FirstSpanIs | song_editor/ui/block_view.py:391-395 | a span holding the position that no earlier span holds is the one found |
| BlockView.FindWordCorrectedSpec | song_editor/ui/block_view.py:115-141 | with spans over the displayed pieces, every character of word k's piece maps back to word k |
| BlockView.FindWordMissesAfterAlternative | song_editor/ui/block_view.py:368-395 | for the shown text "a<x> b", the position of "b" maps to no word as written, while the corrected mapping finds word 1 |
| BlockView.DoubleClickWindow | song_editor/ui/block_view.py:343-360 | for a word whose midpoint lies between 0 and the block end, the played window holds the midpoint, never starts before 0 and is no longer than asked |
| BlockView.UpdatedData | song_editor/ui/block_view.py:397-406 | the block keeps its times and words, and its chords and alternative lyrics are cleared |
| BlockView.BlockChords | song_editor/ui/block_view.py:753-767 | one chord of confidence 0.9 per block with a non-empty local chord, never more chords than blocks |
| BlockView.BlockChordsEndBy | song_editor/ui/block_view.py:753-767 | no gathered chord ends after the last block's end |
| BlockView.BlockChordsOrdered | song_editor/ui/block_view.py:753-767 | blocks in time order give chords in time order, none overlapping |
| BlockView.UpdatedChordsOrdered | song_editor/ui/block_view.py:472-522 | the chords gathered from freshly built blocks follow one another in time |
| BlockView.View.constructor | song_editor/ui/block_view.py:425-431 | a new view has no blocks |
| BlockView.View.CreateBlocksFromData | song_editor/ui/block_view.py:472-522 | no words leaves the blocks unchanged; otherwise the blocks become Blocks of the words |
| BlockView.View.GetUpdatedWords | song_editor/ui/block_view.py:744-751 | the blocks' words, concatenated in block order |
| BlockView.View.GetUpdatedChords | song_editor/ui/block_view.py:753-767 | the chords of the blocks with a local chord, in block order |
| BlockView.TotalDuration | song_editor/ui/block_view.py:478 | the running maximum equals the largest word end |
| BlockView.WordsWithin | song_editor/ui/block_view.py:488 | the filter loop keeps the words inside the span, in order |
| BlockView.AlignChords | song_editor/ui/block_view.py:492-499 | the chord loop recolours each block word as Recolor says |
| BlockView.MostCommonChord | song_editor/ui/block_view.py:503-509 | the counting dictionary and its first maximum give the local chord |
| CcliExport.FirstOverlap | song_editor/export/ccli_exporter.py:80-88 | the first chord in list order whose span touches the word's span, or none when no chord does |
| CcliExport.FindChordForWord | song_editor/export/ccli_exporter.py:74-88 | the loop returns the symbol of the first overlapping chord (a missing word end counts as start + 0.5, a missing chord end as start + 1.0) |
| CcliExport.FormatChord | song_editor/export/ccli_exporter.py:62-72 | the word always ends the token; "brackets" gives "[chord]word", "inline" "chordword", any other format "chord word" |
| CcliExport.Repeat | song_editor/export/ccli_exporter.py:154 | `"=" * n` is n copies of the character |
| CcliExport.LyricTokens | song_editor/export/ccli_exporter.py:218-223 | one token per word: its text, cleaned when punctuation removal is on |
| CcliExport.ChordProTokens | song_editor/export/ccli_exporter.py:255-274 | one token per word, formatted with its chord |
| CcliExport.FilledFromLines | song_editor/export/ccli_exporter.py:212-239 | the header and the greedily filled lines, joined by newlines, are the section text |
| CcliExport.LyricsOnlySection | song_editor/export/ccli_exporter.py:205-239 | "" for no words; otherwise "LYRICS ONLY", 50 '=', a blank line and the word texts filled greedily to the line length |
| CcliExport.LyricsLines | song_editor/export/ccli_exporter.py:217-237 | the word loop yields the header followed by the greedy fill of the tokens |
| CcliExport.ChordProSection | song_editor/export/ccli_exporter.py:241-290 | "" for no words; otherwise "CHORDPRO FORMAT", 50 '=', a blank line and the chord-formatted words filled greedily |
| CcliExport.ChordProLines | song_editor/export/ccli_exporter.py:254-288 | the word loop yields the header followed by the greedy fill of the formatted words |
| CcliExport.ChordProWord | song_editor/export/ccli_exporter.py:256-274 | one word's token: the cleaned text, formatted with its chord when that chord is non-empty |
| CcliExport.BareWhenNoChord | song_editor/export/ccli_exporter.py:266-274 | a word without an overlapping chord, or whose chord symbol is empty, appears as its bare text |
| CcliExport.ChartSectionsSpec | song_editor/export/ccli_exporter.py:305-322 | the sections are non-empty, concatenate back to the chord list, have no gap above 2 s inside, and break exactly at gaps above 2 s |
| CcliExport.Dedupe | song_editor/export/ccli_exporter.py:329-333 | the kept symbols are exactly the section's symbols, each once |
| CcliExport.DedupeOrder | song_editor/export/ccli_exporter.py:329-333 | the kept symbols follow the order of their first appearance |
| CcliExport.Symbols | song_editor/export/ccli_exporter.py:331 | the symbols of a section, in order |
| CcliExport.GroupChords | song_editor/export/ccli_exporter.py:305-322 | the grouping loop produces the gap-separated sections |
| CcliExport.UniqueSymbols | song_editor/export/ccli_exporter.py:329-333 | the de-duplicating loop yields the distinct symbols in first-seen order |
| CcliExport.SectionBlock | song_editor/export/ccli_exporter.py:326-340 | "Section i+1:", the symbols joined by " \| " when there are any, then a blank line |
| CcliExport.ChordChartSection | song_editor/export/ccli_exporter.py:292-342 | "" for no chords; otherwise the chart header followed by each section's block |
| CcliExport.Events | song_editor/export/ccli_exporter.py:166-174 | every chord, then every word, each tagged with its start and its place in the list |
| CcliExport.Insert | song_editor/export/ccli_exporter.py:177 | inserting one event keeps all the others and adds it once |
| CcliExport.StableSort | song_editor/export/ccli_exporter.py:177 | the sorted events are a permutation of the events |
| CcliExport.StableSortOrdered | song_editor/export/ccli_exporter.py:177 | the sorted events are ordered by time, ties kept in list order |
| CcliExport.TimelineSorted | song_editor/export/ccli_exporter.py:166-177 | the timeline is a permutation ordered by start, stable on ties, so at equal times every chord precedes every word |
| CcliExport.ChordOrders | song_editor/export/ccli_exporter.py:169-174 | in any rearrangement, an event is a chord exactly when it came from the chord list |
| CcliExport.PadRight | song_editor/export/ccli_exporter.py:192 | `f"{s:<n}"` keeps s and pads with spaces to at least n characters |
| CcliExport.Rows | song_editor/export/ccli_exporter.py:180-201 | one table row per event |
| CcliExport.BuildEvents | song_editor/export/ccli_exporter.py:166-174 | the two loops build the chord events followed by the word events |
| CcliExport.ChordEvents | song_editor/export/ccli_exporter.py:169-170 | the first loop lists one event per chord |
| CcliExport.AddWordEvents | song_editor/export/ccli_exporter.py:173-174 | the second loop appends one event per word after the chords |
| CcliExport.TableRows | song_editor/export/ccli_exporter.py:180-201 | the row loop writes a chord row ("symbol" padded to 15, then 40 blanks) or a lyric row (15 blanks, then the text padded to 40) per event |
| CcliExport.ChordLyricsTable | song_editor/export/ccli_exporter.py:144-203 | "" for no words; otherwise the title, 70 '=', a blank line, the header, 55 '-' and one row per sorted event |
| CcliExport.TrimSlashes | song_editor/export/ccli_exporter.py:97 | trailing slashes are dropped and nothing else |
| CcliExport.AfterSlash | song_editor/export/ccli_exporter.py:97 | the last path component, containing no '/' |
| CcliExport.LastDot | song_editor/export/ccli_exporter.py:97 | the position of the last '.', or none when there is none |
| CcliExport.Stem | song_editor/export/ccli_exporter.py:97 | `Path(p).stem` is a prefix of the last component and has no '/' |
| CcliExport.TwoDigits | song_editor/export/ccli_exporter.py:120 | `{seconds:02d}` is exactly two digits |
| CcliExport.DurationSplit | song_editor/export/ccli_exporter.py:116-120 | the duration splits into whole minutes and seconds below 60, losing less than a second |
| CcliExport.MetadataLines | song_editor/export/ccli_exporter.py:90-142 | with no source audio, no shown key, no tempo, no duration and no metadata the section has no lines |
| CcliExport.KeyLineShown | song_editor/export/ccli_exporter.py:101-108 | a "Key: " line appears exactly when a key is given and its root is not "Unknown" |
| CcliExport.NonEmpty | song_editor/export/ccli_exporter.py:353-379 | the sections kept are the non-empty ones |
| CcliExport.PartsSections | song_editor/export/ccli_exporter.py:350-379 | each non-empty section is kept in order and a blank line only ever follows a section |
| CcliExport.FilePartsSections | song_editor/export/ccli_exporter.py:350-379 | the file holds metadata (when included), table, ChordPro, chart and lyrics in that order, skipping empty ones, with blank lines only after sections |
| CcliExport.JoinSections | song_editor/export/ccli_exporter.py:350-382 | the assembly joins the collected sections with newlines |
| CcliExport.AddPart | song_editor/export/ccli_exporter.py:359-362 | a non-empty section is appended, followed by a blank line when asked; an empty one adds nothing |
| CcliExport.Export | song_editor/export/ccli_exporter.py:344-389 | the exported text is the newline join of the five sections built from the song |
| CcliPunctuation.MapChar | song_editor/export/ccli_exporter.py:46-51 | a kept character (non-punctuation or apostrophe) stays, `. , ! ? ; :` become a space, any other punctuation vanishes |
| CcliPunctuation.ReplacePairs | song_editor/export/ccli_exporter.py:55 | one `replace("  ", " ")` never lengthens the text |
| CcliPunctuation.ReplaceKeepsCollapse | song_editor/export/ccli_exporter.py:54-55 | a replacement pass does not change the collapsed form, so the loop converges to it |
| CcliPunctuation.ReplaceShortens | song_editor/export/ccli_exporter.py:54-55 | while a double space remains, each pass shortens the text, so the loop ends |
| CcliPunctuation.CollapseNoop | song_editor/export/ccli_exporter.py:54 | a text without a double space is left as it is |
| CcliPunctuation.CollapseNoDouble | song_editor/export/ccli_exporter.py:54-55 | the collapsed text has no double space |
| CcliPunctuation.StripSlice | song_editor/export/ccli_exporter.py:58 | stripping takes a contiguous slice of the text |
| CcliPunctuation.StripNonSpace | song_editor/export/ccli_exporter.py:58 | stripping removes only whitespace |
| CcliPunctuation.CleanSpecProperties | song_editor/export/ccli_exporter.py:34-60 | the cleaned text holds only kept characters, no double space, no leading or trailing space, its non-space characters are exactly the input's kept ones in order, and "" stays "" |
| CcliPunctuation.CleanNoDouble | song_editor/export/ccli_exporter.py:53-58 | the cleaned text has no double space |
| CcliPunctuation.CleanNonSpace | song_editor/export/ccli_exporter.py:46-58 | the cleaned text's non-space characters are the input's kept characters, in order |
| CcliPunctuation.RemovePunctuation | song_editor/export/ccli_exporter.py:34-60 | the character loop, the double-space loop and the strip compute the cleaned text |
| CcliText.LastChord | song_editor/export/ccli.py:21-33 | the chord remembered is always a non-empty one |
| CcliText.WordTokens | song_editor/export/ccli.py:24-27 | a word contributes its text last, preceded by at most its "[chord]" |
| CcliText.LineText | song_editor/export/ccli.py:39 | each written line ends with a newline |
| CcliText.FoldPrev | song_editor/export/ccli.py:21-33 | the remembered chord is the last chord injected on the current line, and the line is empty exactly after a gap |
| CcliText.StepTokens | song_editor/export/ccli.py:22-33 | one pass appends the word's tokens to the current line and, at a gap above 0.5 s, finishes the line |
| CcliText.FoldTokens | song_editor/export/ccli.py:22-33 | after n passes every one of the first n words has contributed its tokens, in order |
| CcliText.FoldLines | song_editor/export/ccli.py:22-33 | one finished line per gap, none empty |
| CcliText.CcliLines | song_editor/export/ccli.py:19-35 | the lines cover every word's tokens in order, number one more than the gaps, and none is empty |
| CcliText.WordTexts | song_editor/export/ccli.py:27 | the texts of the first n words |
| CcliText.TextsInOrder | song_editor/export/ccli.py:22-27 | every word's text appears exactly once among the lyric tokens, in input order |
| CcliText.WordLyric | song_editor/export/ccli.py:27 | each word contributes exactly its own text as a lyric |
| CcliText.LineStartInjects | song_editor/export/ccli.py:24-33 | the first word with a chord on a line always has its chord injected |
| CcliText.NoChordSinceStart | song_editor/export/ccli.py:21-33 | with no chord since the line began, nothing is remembered |
| CcliText.ExportCcli | song_editor/export/ccli.py:8-39 | the text written is each line's tokens joined by spaces, stripped, with a newline; no words writes "" |
| CcliWrap.AddToken | song_editor/export/ccli_exporter.py:225-233 | one pass of the filling loop leaves the header alone and steps the finished lines and current line |
| CcliWrap.FinishLines | song_editor/export/ccli_exporter.py:235-237 | appending a non-empty last line gives the header followed by the wrapped lines |
| CcliWrap.WrappedShape | song_editor/export/ccli_exporter.py:225-237 | no line is empty and each fits the maximum unless it is one over-long token |
| CcliWrap.WrappedJoin | song_editor/export/ccli_exporter.py:225-237 | without empty tokens, the lines joined by spaces are the tokens joined by spaces: nothing lost or reordered |
| CcliWrap.WrappedGreedy | song_editor/export/ccli_exporter.py:226 | the filling is greedy: no line could also have taken the next line's content |
| ChordDetector.RootLen | song_editor/core/chord_detector.py:268-274 | the root is one character, or two when the second is '#' or 'b' |
| ChordDetector.AfterSlash | song_editor/core/chord_detector.py:262-265 | `split('/')[1]` is the text after the first slash, up to the next one, and holds no slash |
| ChordDetector.ParseChordSymbol | song_editor/core/chord_detector.py:249-319 | a blank symbol gives C maj without bass; a bass is present exactly when the stripped symbol holds '/'; the quality is never empty |
| ChordDetector.ParseComposed | song_editor/core/chord_detector.py:249-319 | parsing inverts composition: root + suffix (+ "/" + bass) parses back to that root, the suffix's quality name and that bass |
| ChordDetector.TemplateOnes | song_editor/core/chord_detector.py:207-247 | the template of a family for root i is the family's pattern rotated by i: 1 exactly at (k + i) mod 12 for each chord tone k, 0 elsewhere |
| ChordDetector.ChordTemplates | song_editor/core/chord_detector.py:207-247 | the bank as written: 7 families of 12 roots, 84 templates, named root then suffix; the dominant-seventh family (the third) holds the vectors the code builds, every other family the intended ones |
| ChordDetector.SeventhsReuseTriads | song_editor/core/chord_detector.py:227-235 | the maj7 and m7 templates are the major and minor vectors, as the source's comments say |
| ChordDetector.TemplateAsWritten | song_editor/core/chord_detector.py:221-225 | the bank as written agrees with the intended one except the dominant-seventh family |
| ChordDetector.SeventhAsWrittenIsMajorSeventh | song_editor/core/chord_detector.py:222-225 | as written, the "7" template marks the major seventh (offset 11) and not the minor seventh (offset 10), so it differs from the dominant-seventh chord |
| ChordDetector.TemplateNameParses | song_editor/core/chord_detector.py:207-319 | every template name parses back to its root and its family's quality |
| ChordDetector.TemplateNamesDistinct | song_editor/core/chord_detector.py:207-247 | the 84 names are distinct, so no template overwrites another in the dictionary |
| ChordDetector.ChordinoChords | song_editor/core/chord_detector.py:101-128 | a Chordino result is kept iff its confidence (0.5 when absent) reaches the minimum, tagged "chordino" with duration end - start; all are kept when all pass |
| ChordDetector.ChromaConfidence | song_editor/core/chord_detector.py:181 | the confidence lies in [0, 1] and is (best + 1) / 2 for a correlation in [-1, 1] |
| ChordDetector.BestTemplate | song_editor/core/chord_detector.py:170-178 | the scan picks an existing template, or none when no correlation beats -1 |
| ChordDetector.RichSeventhsNeverChosen | song_editor/core/chord_detector.py:174-178 | scoring the bank as written, maj7 and m7 are never chosen: their vectors equal the major and minor ones listed earlier, and the scan only moves on a strict gain |
| ChordDetector.ChromaFrameChord | song_editor/core/chord_detector.py:167-199 | a frame yields a chord of confidence at least the minimum, spanning one window from the frame time; no template chosen is an error only when the minimum is at most 0 |
| ChordDetector.Standardize | song_editor/core/chord_detector.py:45-75 | the mapping table maps every listed symbol to itself, so standardisation keeps the symbol |
| ChordDetector.Reparse | song_editor/core/chord_detector.py:326-347 | the chord keeps its symbol and everything else, with root, quality and bass re-parsed from the symbol |
| ChordDetector.SimplifyChords | song_editor/core/chord_detector.py:321-349 | with simplification off the list is untouched; otherwise every chord is re-parsed in place |
| ChordDetector.MergeFrom | song_editor/core/chord_detector.py:356-378 | the merged list is no longer than the input and holds only chords lasting at least the minimum |
| ChordDetector.MergeFromSymbols | song_editor/core/chord_detector.py:356-378 | every merged chord carries a symbol of the input |
| ChordDetector.MergeSimilarChordsSpec | song_editor/core/chord_detector.py:351-378 | merging never lengthens the list, keeps [] as [], keeps only long-enough chords, each named after an input chord |
| ChordDetector.MergeWithoutNeighboursFilters | song_editor/core/chord_detector.py:359-376 | with no similar neighbours the merge is exactly the minimum-duration filter |
| ChordDetector.LongEnough | song_editor/core/chord_detector.py:369-376 | the duration filter never lengthens the list |
| ChordDetector.MergeRun | song_editor/core/chord_detector.py:359-368 | a run of same-symbol chords each starting within 0.1 s of the previous end becomes one chord spanning the run, dropped only when shorter than the minimum |
| ChordDetector.MergeSimilarChordsLoop | song_editor/core/chord_detector.py:351-378 | the loop with its running chord computes the merge |
| ChordDetector.Roots | song_editor/core/chord_detector.py:425-427 | the roots of the chords in order |
| ChordDetector.Progressions | song_editor/core/chord_detector.py:439-442 | one "a -> b" text per adjacent pair of roots |
| ChordDetector.CommonProgressions | song_editor/core/chord_detector.py:439-454 | the progressions are ranked as a stable descending sort of the tally would rank them, cut at five, with their true counts (the `RankedCounts` description, which `Tally.RankedUnique` shows determines the list) |
| ChordDetector.AnalyzeChordProgression | song_editor/core/chord_detector.py:412-470 | no chords gives "Unknown" with 0; otherwise the root counts, a most frequent root (first seen among equals) as key, its share in (0, 1] as confidence, and the ranked progressions, min(5, distinct progressions) of them |
| ChordEditor.QualitySuffix | song_editor/ui/chord_editor.py:291-310 | "major" adds nothing, "minor" adds "m", the other listed qualities add their own name, an unlisted one nothing |
| ChordEditor.SymbolPreview | song_editor/ui/chord_editor.py:284-315 | the preview starts with the root and ends with "/bass" exactly when a bass other than the root is chosen |
| ChordEditor.Symbols | song_editor/ui/chord_editor.py:528 | the symbols in list order |
| ChordEditor.ExportProgression | song_editor/ui/chord_editor.py:526-528 | no chords give "", one chord gives its symbol |
| ChordEditor.ParseSymbol | song_editor/ui/chord_editor.py:540-553 | the parsed quality is one of minor, m7, 7 or major, the root never longer than the symbol, and a major symbol is its own root |
| ChordEditor.ImportedChord | song_editor/ui/chord_editor.py:536-562 | chord i spans [i, i + 1], keeps its symbol, has no bass, is tagged "imported" and carries the parsed root and quality |
| ChordEditor.ImportProgression | song_editor/ui/chord_editor.py:530-563 | one chord per whitespace-separated token, in order |
| ChordEditor.ExportImportSymbols | song_editor/ui/chord_editor.py:526-563 | importing the exported progression gives back the symbols, one second apart, when no symbol is empty or holds whitespace |
| ChordEditor.PreviewParses | song_editor/ui/chord_editor.py:284-315 | for major, minor, 7 and m7 and a root without "m" or "7", importing the preview recovers root and quality |
| ChordEditor.Simplify | song_editor/ui/chord_editor.py:452-460 | a bass-less major, minor, 7 or m7 chord gets the preview symbol of its root and quality; nothing else about any chord changes |
| ChordEditor.ChangedCount | song_editor/ui/chord_editor.py:462-463 | the count never exceeds the number of chords |
| ChordEditor.ChangedCountZero | song_editor/ui/chord_editor.py:462-478 | the count is zero exactly when no symbol changes |
| ChordEditor.SimplifyAll | song_editor/ui/chord_editor.py:449-460 | each chord simplified, in place and in order |
| ChordEditor.SimplifyIdempotent | song_editor/ui/chord_editor.py:445-478 | simplifying twice is simplifying once, and a second pass reports nothing changed |
| ChordEditor.SimplifyStep | song_editor/ui/chord_editor.py:449-463 | one pass of the loop simplifies chord i and counts it when its symbol changes |
| ChordEditor.Collapse | song_editor/ui/chord_editor.py:481-499 | merging never lengthens the list, keeps the first symbol, and leaves no two neighbours with the same symbol |
| ChordEditor.CollapseEnds | song_editor/ui/chord_editor.py:493-497 | the first chord is kept, only its end stretched, and the list still ends where the last chord ended |
| ChordEditor.Repeats | song_editor/ui/chord_editor.py:493 | the number of adjacent equal symbols is below the list length |
| ChordEditor.CollapseSymbols | song_editor/ui/chord_editor.py:489-499 | the merged symbols are the input symbols with adjacent repeats dropped |
| ChordEditor.CollapseRemoved | song_editor/ui/chord_editor.py:493-497 | the number of chords merging removes is the number of adjacent repeats |
| ChordEditor.MergeStep | song_editor/ui/chord_editor.py:493-497 | absorbing the next chord into chord i (end taken over, next deleted) keeps the merged result |
| ChordEditor.KeepStep | song_editor/ui/chord_editor.py:498-499 | moving past a chord with a different successor keeps the merged result |
| ChordEditor.LastStep | song_editor/ui/chord_editor.py:489 | when the loop stops, the list is its merged form |
| ChordEditor.CollapseIdempotent | song_editor/ui/chord_editor.py:481-515 | merging a merged list changes nothing |
| ChordEditor.SymbolSet | song_editor/ui/chord_editor.py:277 | exactly the symbols that occur |
| ChordEditor.Statistics | song_editor/ui/chord_editor.py:274-282 | the count of chords, the distinct symbols (none exactly when there are no chords) and the summed lengths |
| ChordEditor.CollapseKeepsSymbols | song_editor/ui/chord_editor.py:277-278 | merging keeps the set of distinct symbols |
| ChordEditor.TotalDurationAppend | song_editor/ui/chord_editor.py:278 | the total length of a list is the sum over its parts |
| ChordEditor.NewChord | song_editor/ui/chord_editor.py:389-405 | the new chord spans [row, row + 1], carries the preview symbol, root and quality, an empty bass unset, and is tagged "manual" |
| ChordEditor.Editor.constructor | song_editor/ui/chord_editor.py:27-31 | an editor starts with no chords |
| ChordEditor.Editor.AddChord | song_editor/ui/chord_editor.py:381-415 | the new chord is inserted at the selected row, or appended when none is selected |
| ChordEditor.Editor.DeleteChord | song_editor/ui/chord_editor.py:417-423 | the selected chord is removed; an out-of-range row changes nothing |
| ChordEditor.Editor.MoveChordUp | song_editor/ui/chord_editor.py:425-433 | the selected chord swaps with the one above when there is one |
| ChordEditor.Editor.MoveChordDown | song_editor/ui/chord_editor.py:435-443 | the selected chord swaps with the one below; with no selection (row -1) Python's negative index swaps the last and first chords |
| ChordEditor.Editor.SimplifyChords | song_editor/ui/chord_editor.py:445-478 | every chord is simplified and the count is the number of changed symbols |
| ChordEditor.Editor.MergeSimilarChords | song_editor/ui/chord_editor.py:481-515 | the list becomes its merged form (unchanged below two chords) and the count is the number of chords removed |
| ChordEditor.Editor.GetChords | song_editor/ui/chord_editor.py:517-519 | a copy of the list |
| ChordEditor.Editor.SetChords | song_editor/ui/chord_editor.py:521-524 | the list is replaced |
| ChordEditor.Editor.ImportProgressionText | song_editor/ui/chord_editor.py:530-565 | the list becomes the imported progression |
| EditorList.PyIndex | song_editor/ui/chord_editor.py:439-440 | Python's reading of an index: a negative one counts from the end |
| EditorList.Insert | song_editor/ui/chord_editor.py:408 | `list.insert` puts the element at the row, or at the end past it, keeping every other element in order |
| EditorList.Delete | song_editor/ui/chord_editor.py:419-421 | a row inside the list is removed and the rest keep their order; any other row changes nothing |
| EditorList.Swap | song_editor/ui/chord_editor.py:429-430 | the tuple swap exchanges two entries under Python indexing and leaves the rest |
| EditorList.MoveUp | song_editor/ui/chord_editor.py:425-433 | a row above the first swaps with the row above it; row 0 or no selection changes nothing |
| EditorList.MoveDown | song_editor/ui/chord_editor.py:435-443 | a row above the last swaps with the one below; the last row changes nothing |
| EditorList.MoveDownWraps | song_editor/ui/chord_editor.py:437-440 | with nothing selected (row -1) "move down" exchanges the last and first entries |
| EditorList.MoveUpThenDown | song_editor/ui/chord_editor.py:425-443 | moving a row up then back down restores the list |
| EditorList.DeleteInserted | song_editor/ui/chord_editor.py:381-423 | deleting the row just inserted gives the list back |
| Common.Trunc | song_editor/export/ccli_exporter.py:118 | Python `int()` on a float truncates toward zero |
| Common.Split | song_editor/ui/chord_editor.py:532 | `str.split()` yields non-empty tokens without whitespace |
| Common.SplitJoin | song_editor/ui/chord_editor.py:528-532 | splitting the space-joined tokens gives them back when none is empty or holds whitespace |
| Common.NatToString | song_editor/export/ccli_exporter.py:120 | `str(n)` is a non-empty run of digits |
| Common.NatToStringInjective | song_editor/export/ccli_exporter.py:120 | different numbers print differently |
| Common.SplitOn | song_editor/ui/enhanced_lyrics_editor.py:338 | `s.split(c)` yields at least one piece, none holding the separator |
| Common.JoinSplitOn | song_editor/ui/enhanced_lyrics_editor.py:338 | joining the pieces with the separator gives the text back |
| Common.SplitOnJoin | song_editor/ui/enhanced_lyrics_editor.py:972 | splitting pieces joined by a separator they lack gives the pieces back |
| Common.RemoveAllSuffix | song_editor/ui/chord_editor.py:546-549 | `replace(p, "")` on a text lacking p's first character followed by p removes exactly that p |
| Common.FindFrom | song_editor/core/chord_detector.py:262 | the first occurrence at or after the start, or none |
| Common.FirstBestSound | song_editor/core/chord_detector.py:170-178 | the strict-gain scan finds the first maximum, and nothing only when no value beats the start |
| Common.Roll | song_editor/core/chord_detector.py:215 | `np.roll(t, i)` puts element (j - i) mod 12 at position j |
| Common.RollAt | song_editor/core/chord_detector.py:215 | rolling by i moves entry d to (d + i) mod 12 |
| EnhancedLyrics.StripChords | song_editor/ui/enhanced_lyrics_editor.py:1199-1205 | the loop removes bracketed spans and leaves no '[' followed later by ']', never lengthening the text |
| EnhancedLyrics.StripChordsIdempotent | song_editor/ui/enhanced_lyrics_editor.py:1199-1205 | stripping a stripped text changes nothing |
| EnhancedLyrics.RemoveChordAnnotations | song_editor/ui/enhanced_lyrics_editor.py:1199-1205 | the `while '[' in … and ']' in …` loop computes the stripped text, stopping when no ']' follows the first '[' |
| EnhancedLyrics.RenderWord | song_editor/ui/enhanced_lyrics_editor.py:843-845 | "[chord]text" for a word with a non-empty chord, else the text |
| EnhancedLyrics.Renders | song_editor/ui/enhanced_lyrics_editor.py:841-847 | one rendered piece per word |
| EnhancedLyrics.LineGroupsShape | song_editor/ui/enhanced_lyrics_editor.py:841-859 | every word appears once in order, no line is empty, and a line ends exactly after a word ending in `. ! ? : ;` or flagged as a line break, or at the last word |
| EnhancedLyrics.LineTexts | song_editor/ui/enhanced_lyrics_editor.py:854 | each line's pieces joined by spaces |
| EnhancedLyrics.BuildLyricsText | song_editor/ui/enhanced_lyrics_editor.py:833-863 | the line-building loop yields the lines joined by newlines |
| EnhancedLyrics.WrapLine | song_editor/ui/enhanced_lyrics_editor.py:975-1006 | blank lines and lines of at most 60 characters stay; longer ones are refilled greedily by words |
| EnhancedLyrics.WrapLineShape | song_editor/ui/enhanced_lyrics_editor.py:986-1006 | a refilled line keeps its words in order and each piece fits in 60 characters or is a single word |
| EnhancedLyrics.WrapLinePieces | song_editor/ui/enhanced_lyrics_editor.py:975-1006 | every piece of a wrapped line holds no newline and wraps to itself |
| EnhancedLyrics.WrapLinesFixed | song_editor/ui/enhanced_lyrics_editor.py:972-1009 | lines that each wrap to themselves are left as they are |
| EnhancedLyrics.WrappedTextIdempotent | song_editor/ui/enhanced_lyrics_editor.py:946-1012 | wrapping a wrapped text changes nothing, so the wrap re-run on every resize settles after one pass |
| EnhancedLyrics.WrapLongLine | song_editor/ui/enhanced_lyrics_editor.py:986-1006 | the loop with its running length computes the greedy refill of the line's words |
| EnhancedLyrics.LineFlags | song_editor/ui/enhanced_lyrics_editor.py:1043-1047 | in a line of n words only the last is flagged |
| EnhancedLyrics.WithFlags | song_editor/ui/enhanced_lyrics_editor.py:1043-1048 | word k takes flag k while both last; later words and all other fields are untouched |
| EnhancedLyrics.AllFlagsCount | song_editor/ui/enhanced_lyrics_editor.py:1038-1048 | exactly one flag is set per non-blank line |
| EnhancedLyrics.WrapOneLine | song_editor/ui/enhanced_lyrics_editor.py:975-1006 | one pass of the line loop yields the line's wrapped pieces |
| EnhancedLyrics.KeepLetters | song_editor/ui/enhanced_lyrics_editor.py:1212-1216 | only letters and apostrophes remain, never more than the token had |
| EnhancedLyrics.CleanToken | song_editor/ui/enhanced_lyrics_editor.py:1212-1216 | the character loop keeps the letters and apostrophes in order |
| EnhancedLyrics.CleanTokens | song_editor/ui/enhanced_lyrics_editor.py:1209-1217 | the tokens kept are non-empty |
| EnhancedLyrics.RhymeWordsSpec | song_editor/ui/enhanced_lyrics_editor.py:1197-1219 | the unique words are exactly the cleaned lower-case tokens of the chord-free text, each once, in first-seen order |
| EnhancedLyrics.Buckets | song_editor/ui/enhanced_lyrics_editor.py:1229-1238 | the dictionary has a list for exactly the keys seen |
| EnhancedLyrics.KeyOrderSpec | song_editor/ui/enhanced_lyrics_editor.py:1229-1238 | the keys are non-empty, distinct, in first-seen order, and every word with a non-empty key contributes its key |
| EnhancedLyrics.BucketSpec | song_editor/ui/enhanced_lyrics_editor.py:1229-1238 | a key's list holds exactly the words with that key |
| EnhancedLyrics.Pos | song_editor/ui/enhanced_lyrics_editor.py:1241 | the index of a key in dictionary order, or the length when absent |
| EnhancedLyrics.Label | song_editor/ui/enhanced_lyrics_editor.py:1246-1247 | the group's words get its name and every other entry keeps its own |
| EnhancedLyrics.Assign | song_editor/ui/enhanced_lyrics_editor.py:1240-1247 | no more groups are numbered than keys visited |
| EnhancedLyrics.AssignSpec | song_editor/ui/enhanced_lyrics_editor.py:1240-1247 | after j keys, a word is named iff its key is among them and shared by two or more words, and its name is "group_" plus one more than the number of groups formed before its key |
| EnhancedLyrics.AssignStep | song_editor/ui/enhanced_lyrics_editor.py:1241-1247 | step j names the words of key j - 1 with the next number when the list has two or more words, and otherwise changes nothing |
| EnhancedLyrics.GroupNamesMembers | song_editor/ui/enhanced_lyrics_editor.py:1229-1247 | a word is grouped iff it shares a non-empty key with another word |
| EnhancedLyrics.GroupIdsOrdered | song_editor/ui/enhanced_lyrics_editor.py:1240-1245 | group numbers follow the order in which keys were first seen |
| EnhancedLyrics.GroupNameOf | song_editor/ui/enhanced_lyrics_editor.py:1240-1247 | a grouped word's name is its key's number among the groups |
| EnhancedLyrics.CountsDistinct | song_editor/ui/enhanced_lyrics_editor.py:1240-1245 | different grouping keys get different numbers |
| EnhancedLyrics.SameKeySameName | song_editor/ui/enhanced_lyrics_editor.py:1240-1247 | grouped words with the same key carry the same name |
| EnhancedLyrics.SameNameSameKey | song_editor/ui/enhanced_lyrics_editor.py:1240-1247 | grouped words with the same name have the same key |
| EnhancedLyrics.Outside | song_editor/ui/enhanced_lyrics_editor.py:1251-1253 | the words not already in a perfect group |
| EnhancedLyrics.NearGroupsOutside | song_editor/ui/enhanced_lyrics_editor.py:1249-1277 | no word is both a perfect and a near rhyme, and every grouped word is a word of the text |
| EnhancedLyrics.CollectByKey | song_editor/ui/enhanced_lyrics_editor.py:1229-1238 | the first pass builds the keys in first-seen order and the words per key, skipping words already grouped |
| EnhancedLyrics.NameGroups | song_editor/ui/enhanced_lyrics_editor.py:1240-1247 | the second pass names the words of every key shared by two or more words |
| EnhancedLyrics.LabelWords | song_editor/ui/enhanced_lyrics_editor.py:1246-1247 | the inner loop gives each word of the group the name |
| EnhancedLyrics.GroupByKey | song_editor/ui/enhanced_lyrics_editor.py:1229-1247 | both passes for one key give the group names of the words not skipped |
| EnhancedLyrics.BucketsStep | song_editor/ui/enhanced_lyrics_editor.py:1237-1238 | one more word extends its key's list, adding the key at the end when new; an empty key changes nothing |
| EnhancedLyrics.Editor.constructor | song_editor/ui/enhanced_lyrics_editor.py:516-534 | a new editor has no words, no text and no groups |
| EnhancedLyrics.Editor.AnalyzeRhymes | song_editor/ui/enhanced_lyrics_editor.py:1195-1277 | the perfect groups are the "group_" names by rhyme key, the near groups the "near_" names by near-rhyme key over the words left |
| EnhancedLyrics.Editor.SetLyricsData | song_editor/ui/enhanced_lyrics_editor.py:833-864 | the words are kept and the text is their lines |
| EnhancedLyrics.Editor.UpdateLineBreaks | song_editor/ui/enhanced_lyrics_editor.py:1036-1051 | the word at each token position takes "last token of its line" as its flag; surplus tokens and words are untouched |
| EnhancedLyrics.Editor.FlagLine | song_editor/ui/enhanced_lyrics_editor.py:1042-1048 | the words of one line take their flags, the last True, and the index moves past the line |
| EnhancedLyrics.Editor.ApplyAutoWrapping | song_editor/ui/enhanced_lyrics_editor.py:946-1034 | with no words, blank text or an editor narrower than 200 px nothing changes; otherwise the text becomes its wrapped form and, if that differs, the flags follow the new lines |
| EnhancedLyrics.WrapAll | song_editor/ui/enhanced_lyrics_editor.py:975-1006 | the line loop concatenates every line's wrapped pieces |
| EnhancedLyrics.CleanWords | song_editor/ui/enhanced_lyrics_editor.py:1209-1217 | the token loop yields the cleaned non-empty tokens |
| FrameChords.Templates | song_editor/processing/chords.py:23-34 | 24 templates of 12 weights each |
| FrameChords.TemplateWeights | song_editor/processing/chords.py:23-34 | for root i, entries 2i and 2i+1 are named after the root and root + "m", weighted 1.0 on the root and 0.9 on the major or minor third and the fifth, rotated by i |
| FrameChords.Scores | song_editor/processing/chords.py:56-57 | one dot product per template |
| FrameChords.FrameLabelSpec | song_editor/processing/chords.py:52-62 | a frame is "N" with score 0 exactly when no score is positive; otherwise its label is the first template reaching the largest score |
| FrameChords.LabelFrames | song_editor/processing/chords.py:50-62 | the nested loop labels every frame with its best template and score |
| FrameChords.Window | song_editor/processing/chords.py:68-71 | the clamped 7-frame window around a frame contains that frame's label |
| FrameChords.SmoothingKeepsConstant | song_editor/processing/chords.py:64-72 | a frame whose label the window of three frames before and three after (clipped at the ends) all share keeps its label |
| FrameChords.Smooth | song_editor/processing/chords.py:64-72 | every smoothed label is a most frequent label of its window |
| FrameChords.SegFrom | song_editor/processing/chords.py:79-97 | the first segment is the open one, with its label and start |
| FrameChords.SegFromShape | song_editor/processing/chords.py:79-97 | neighbouring segments differ in label and meet, the last ends at the last frame time, and there is one more segment than label changes |
| FrameChords.RunEnd | song_editor/processing/chords.py:87-93 | the end of the run of one label |
| FrameChords.SegFromRun | song_editor/processing/chords.py:79-97 | the open segment spans its run, carries the best score over it, and the next segment starts afresh at the change |
| FrameChords.SegmentsShape | song_editor/processing/chords.py:74-97 | no frames give no chords; otherwise the segments start at the first frame time, end at the last, meet, and alternate in label |
| FrameChords.Segment | song_editor/processing/chords.py:74-97 | the loop with `current`, `start_time` and `max_conf` computes the segments |
| FrameChords.ShortMergeIdentity | song_editor/processing/chords.py:99-109 | the short merge fires only on equal neighbouring names, so on segments it changes nothing |
| FrameChords.ShortMergeStep | song_editor/processing/chords.py:101-109 | a chord shorter than 0.25 s named as the last kept one extends it, keeping the larger confidence; any other chord is appended |
| FrameChords.MergeShortChords | song_editor/processing/chords.py:99-109 | the loop rewriting `merged[-1]` computes the short merge |
| FrameChords.SegmentAndMerge | song_editor/processing/chords.py:74-110 | segmentation followed by the short merge gives the segments |
| FrameChords.Detect | song_editor/processing/chords.py:41-110 | the chords are the segments of a smoothing of the per-frame labels, with the per-frame scores; no frames give no chords; otherwise the chords start and end at the first and last frame times, consecutive chords meet and never share a name |
| GeminiClient.InferChords | song_editor/services/gemini_client.py:116-121 | one guess per whitespace word, drawn from C, G, Am, F, each with confidence 0.5 |
| GeminiClient.InferChordsCycle | song_editor/services/gemini_client.py:119-121 | the guesses start on C and repeat every four words |
| GeminiClient.InferChordsWordCount | song_editor/services/gemini_client.py:118-121 | only the number of words matters |
| GeminiClient.AfterFirstLine | song_editor/services/gemini_client.py:312-313 | `split("\n", 1)[1]` is what follows the first newline, or the text when it has none |
| GeminiClient.DropClosingFence | song_editor/services/gemini_client.py:317-318 | a trailing "```" is removed, nothing else |
| GeminiClient.StripCodeFences | song_editor/services/gemini_client.py:309-319 | text not starting with "```" is only trimmed, and the result never has whitespace at either end |
| GeminiClient.FencesRoundTrip | song_editor/services/gemini_client.py:309-319 | a JSON object or list fenced as a "json" block or a bare block comes back exactly |
| GeminiClient.FencedText | song_editor/services/gemini_client.py:309-319 | any opening fence line followed by a JSON body and the closing fence gives the body back |
| GeminiClient.IsUnavailableSpec | song_editor/services/gemini_client.py:297-307 | a reply is unavailable iff its status is 503 or its JSON holds an error object whose status is "UNAVAILABLE" |
| GeminiClient.GetIn | song_editor/services/gemini_client.py:238 | `.get` succeeds only on an object |
| GeminiClient.Key | song_editor/services/gemini_client.py:161 | `v[key]` succeeds only on an object holding the key |
| GeminiClient.Index0 | song_editor/services/gemini_client.py:161 | `v[0]` succeeds only on a non-empty list, giving its first item |
| GeminiClient.AnswerText | song_editor/services/gemini_client.py:157-161 | both lookups find the text of a well-formed answer, and the lenient one of the chunk loop reads an empty object as no text |
| GeminiClient.OrStr | song_editor/services/gemini_client.py:170 | `str(v or "")` is "" for a falsy value |
| GeminiClient.AsDict | song_editor/services/gemini_client.py:251-252 | `v or {}` is the empty dictionary for a falsy value and the object's fields for an object |
| GeminiClient.ComposeSymbol | song_editor/services/gemini_client.py:172-175 | the rebuilt symbol starts with root and quality, and is just those exactly when there is no bass |
| GeminiClient.ComposeSymbolSplit | song_editor/services/gemini_client.py:175 | a rebuilt symbol splits at its slash into the chord and the bass |
| GeminiClient.SymbolOf | song_editor/services/gemini_client.py:170-175 | a non-empty "symbol" field is used as it is |
| GeminiClient.SymbolFallback | song_editor/services/gemini_client.py:171-175 | a chord without a symbol gets root, quality and "/bass" |
| GeminiClient.NotesOf | song_editor/services/gemini_client.py:177-181 | entries that do not convert are passed over, so there are never more notes than entries |
| GeminiClient.RewriteLyrics | song_editor/services/gemini_client.py:49-114 | no API key, a failed request, an HTTP error or an unreadable body give no words |
| GeminiClient.WordsAt | song_editor/services/gemini_client.py:167-168 | when every entry converts, one word per entry |
| GeminiClient.ChordsAt | song_editor/services/gemini_client.py:169-176 | when every entry converts, one chord per entry |
| GeminiClient.Truncate | song_editor/services/gemini_client.py:182-183 | words and chords are cut to the shorter length, as prefixes |
| GeminiClient.AltFromObject | song_editor/services/gemini_client.py:163-183 | a decoded answer sets the notes and gives equally many words and chords |
| GeminiClient.AnalyzeAlt | song_editor/services/gemini_client.py:123-189 | words and chords come back equally many, and a failed request gives nothing |
| GeminiClient.AltFromObjectPairs | song_editor/services/gemini_client.py:167-183 | words and chords that all convert come back index for index, cut to the shorter list |
| GeminiClient.PairsStuck | song_editor/services/gemini_client.py:242-281 | once a conversion raises, nothing more is appended |
| GeminiClient.PairsBalance | song_editor/services/gemini_client.py:249-275 | the words never fall behind the chords and lead by one only after a chord failed to convert |
| GeminiClient.PairsCorrectedAligned | song_editor/services/gemini_client.py:249-275 | reading each pair whole before appending keeps word i with chord i, and keeps all when all convert |
| GeminiClient.MisalignedChunks | song_editor/services/gemini_client.py:249-285 | as written, a chunk whose chord fails after its word was kept shifts every later chord: word "b" is returned with the next chunk's chord "F" |
| GeminiClient.ShiftWords | song_editor/services/gemini_client.py:255-257 | each word moved by the chunk offset |
| GeminiClient.PairsShift | song_editor/services/gemini_client.py:245-272 | the pairing at an offset is the pairing at time zero, shifted |
| GeminiClient.ChunkShift | song_editor/services/gemini_client.py:236-279 | a chunk's words, chords and notes are what the same answer gives at time zero, moved by the chunk's start |
| GeminiClient.Settle | song_editor/services/gemini_client.py:222-234 | the shared count of unavailable answers only grows, and never past the two backoffs |
| GeminiClient.SettleSpec | song_editor/services/gemini_client.py:222-234 | each retry sleeps the next backoff; a chunk is skipped only when the backoffs are used up and the answer is unavailable, otherwise the answer kept is available |
| GeminiClient.ExhaustedSkips | song_editor/services/gemini_client.py:226-231 | with the backoffs used up, a chunk is skipped exactly when its first answer is unavailable |
| GeminiClient.SettleLoop | song_editor/services/gemini_client.py:222-234 | the `while True` retry loop computes the settled answer, skip flag, count and sleeps |
| GeminiClient.ChunkSize | song_editor/services/gemini_client.py:200 | `max(1, int(sr * chunk_seconds))` is at least 1 |
| GeminiClient.ChunkStarts | song_editor/services/gemini_client.py:206-281 | chunk k starts at k times the chunk size, or at the end of the audio |
| GeminiClient.ChunkCountTiles | song_editor/services/gemini_client.py:206-281 | the chunks tile the samples: every one starts before the end and the last reaches it |
| GeminiClient.Waits | song_editor/services/gemini_client.py:203 | the backoff sleeps are a subsequence of the pauses |
| GeminiClient.RunBackoffs | song_editor/services/gemini_client.py:203-234 | the backoff sleeps of a run are the backoffs in order, one per unavailable answer, so at most 60 then 300 |
| GeminiClient.ProcessChunk | song_editor/services/gemini_client.py:222-279 | chunk k is retried, then read unless skipped, updating the shared count |
| GeminiClient.ChunkOutput | song_editor/services/gemini_client.py:236-279 | a chunk's answer is read as the chunk loop reads it |
| GeminiClient.TextOutput | song_editor/services/gemini_client.py:241-244 | the text is stripped of fences and decoded |
| GeminiClient.ObjectOutput | song_editor/services/gemini_client.py:244-276 | a decoded object adds its paired words and chords and its notes |
| GeminiClient.PairLoop | song_editor/services/gemini_client.py:249-271 | the index loop appends each word, then its chord, stopping at the first that raises |
| GeminiClient.NotesLoop | song_editor/services/gemini_client.py:272-276 | the notes loop passes over entries that do not convert |
| GeminiClient.Client.constructor | song_editor/services/gemini_client.py:40-44 | a new client keeps its key and has no notes |
| GeminiClient.Client.HasApiKey | song_editor/services/gemini_client.py:46-47 | true exactly when the key is non-empty |
| GeminiClient.Client.AnalyzeAudioAlt | song_editor/services/gemini_client.py:123-189 | words and chords equally many; no key changes nothing; otherwise the answer's words and chords, and its notes when it decoded |
| GeminiClient.Client.AnalyzeAudioAltChunked | song_editor/services/gemini_client.py:191-285 | no key gives nothing and clears the notes; otherwise the stitched chunks cut to the shorter list, their notes, and the sleeps taken |
| GeminiClient.ChunkLoop | song_editor/services/gemini_client.py:206-283 | the chunk loop stitches every chunk and takes the backoffs and the pauses between chunks |
| GeminiClient.ChunkPass | song_editor/services/gemini_client.py:206-283 | one pass sends, retries and stitches chunk k and pauses unless it was the last |
| SongImport.AllValidWords | song_editor/models/song_data_importer.py:113-124 | the word loop accepts exactly when every word is an object with a string text and numeric start, end and confidence |
| SongImport.ValidateSongData | song_editor/models/song_data_importer.py:86-129 | valid iff the document has "metadata" with version, created_at and source_audio, and "words" is a list of valid words; anything that would raise is invalid |
| SongImport.ValidationIgnoresTimeOrder | song_editor/models/song_data_importer.py:113-124 | a word ending before it starts is accepted: validation never compares start and end |
| SongImport.AltKey | song_editor/models/song_data_importer.py:173 | an alternative without a confidence ranks as 0.0 |
| SongImport.BestAlternative | song_editor/models/song_data_importer.py:173 | `max` by confidence: a single alternative is picked without comparing; with several, it succeeds exactly when the confidences are all numbers or all strings, and picks the first greatest by number or by code-point string order; a mix raises |
| SongImport.StringConfidences | song_editor/models/song_data_importer.py:173 | confidences written as strings "0.9" and "0.8" are compared as strings, and the first is picked |
| SongImport.StrBestSound | song_editor/models/song_data_importer.py:173 | the string scan ends on the first greatest key |
| SongImport.AltText | song_editor/models/song_data_importer.py:170-174 | no or empty alternatives give no text; otherwise the text is that of one of the alternatives |
| SongImport.WordRowOf | song_editor/models/song_data_importer.py:177-187 | a row copies text, times and confidence, has no chord, takes the best alternative's text and uses the word's times for the alternative |
| SongImport.ConvertSpec | song_editor/models/song_data_importer.py:164-191 | one row per word when all convert, else an error |
| SongImport.ConvertToWordRows | song_editor/models/song_data_importer.py:164-191 | the word loop appends each word's row |
| SongImport.ConvertErrorIsImportError | song_editor/models/song_data_importer.py:250-252 | every failure ends the import the same way |
| SongImport.ParseChord | song_editor/models/song_data_importer.py:131-141 | missing text fields default to "", times to 0.0, confidence to 1.0, the bass to None |
| SongImport.ParseNote | song_editor/models/song_data_importer.py:143-152 | a missing pitch defaults to 0, times to 0.0, confidence to 1.0, name and velocity to None |
| SongImport.ParseSegment | song_editor/models/song_data_importer.py:154-162 | a missing type defaults to "other", the label to None, times to 0.0, confidence to 1.0 |
| SongImport.Section | song_editor/models/song_data_importer.py:219-234 | an absent list section gives no entries |
| SongImport.ImportSongData | song_editor/models/song_data_importer.py:193-252 | an invalid document imports as None; otherwise the metadata is kept, the words converted and absent sections are empty |
| SongImport.WordChordObject | song_editor/models/song_data_importer.py:278-284 | a word's chord is written with its symbol, first character as root, the rest (or "maj") as quality, no bass and confidence 1.0 |
| SongImport.ExportWord | song_editor/models/song_data_importer.py:269-286 | an exported word passes validation, has no alternatives, and carries a chord exactly when it has a non-empty one |
| SongImport.ExportChord | song_editor/models/song_data_importer.py:291-299 | a chord is written with all seven fields |
| SongImport.ExportNote | song_editor/models/song_data_importer.py:303-313 | a note omits its pitch name and velocity exactly when they are falsy |
| SongImport.ExportSegment | song_editor/models/song_data_importer.py:317-325 | a segment omits its label exactly when it is falsy |
| SongImport.ExportSpec | song_editor/models/song_data_importer.py:328-334 | the document has exactly the five sections and one entry per word |
| SongImport.ExportSongData | song_editor/models/song_data_importer.py:254-340 | the four loops build the exported document |
| SongImport.ReimportedRow | song_editor/models/song_data_importer.py:177-187 | an exported word reads back with no chord, no alternative text and its own times as the alternative's |
| SongImport.NullIfFalsy | song_editor/models/song_data_importer.py:309-312 | a falsy optional value comes back as None |
| SongImport.ParseExportedChord | song_editor/models/song_data_importer.py:131-141 | a chord survives export and parse unchanged |
| SongImport.ParseExportedNote | song_editor/models/song_data_importer.py:143-152 | a note survives export and parse except that a falsy name or velocity comes back as None |
| SongImport.ParseExportedSegment | song_editor/models/song_data_importer.py:154-162 | a segment survives export and parse except that a falsy label comes back as None |
| SongImport.ExportedWordsConvert | song_editor/models/song_data_importer.py:164-191 | the exported words all convert, each to its reimported row |
| SongImport.ExportImport | song_editor/models/song_data_importer.py:193-340 | an exported song imports back iff its metadata is complete, and then metadata and chords come back unchanged, words lose their chords, and falsy note and segment fields come back as None |
| JsonData.NumberValue | song_editor/models/song_data_importer.py:121-123 | a number's value, True counting as 1 and False as 0 |
| JsonData.Get | song_editor/models/song_data_importer.py:134-140 | `d.get(key, default)` gives the field when present and the default otherwise |
| JsonData.In | song_editor/models/song_data_importer.py:104 | `key in v` tests keys of an object, substrings of a string, items of a list, and raises on anything else |
| JsonData.Objects | song_editor/models/song_data_importer.py:221-222 | a list of objects is visited entry by entry; a non-object entry, a number or null raises; an empty string or object visits nothing |
| JsonData.StrLessIrreflexive | song_editor/models/song_data_importer.py:173 | no string is before itself in Python's string order |
| JsonData.StrLessTransitive | song_editor/models/song_data_importer.py:173 | Python's string order is transitive |
| JsonData.StrLessTotal | song_editor/models/song_data_importer.py:173 | of two different strings one is before the other |
| JsonExport.CheckWord | song_editor/export/json_exporter.py:57-78 | a word passes exactly when it is an object with text, start, end and confidence whose start is strictly before its end; equal times ask for end := start + 0.01; a missing field or start > end rejects |
| JsonExport.FirstBad | song_editor/export/json_exporter.py:57-78 | the loop stops at the first rejected word: every word before it passes or is repaired, and the word at the index (if any) is rejected |
| JsonExport.RepairedWords | song_editor/export/json_exporter.py:74-78 | zero-length words before the stopping index get end = start + 0.01, and every other word keeps its value |
| JsonExport.RepairSpec | song_editor/export/json_exporter.py:33-84 | validation changes only the word list: every other top-level key keeps its value, and a document missing a required field or metadata key is untouched |
| JsonExport.ValidatedWordsHaveLength | song_editor/export/json_exporter.py:57-80 | after a successful validation every word has the four required fields and ends strictly after it starts |
| JsonExport.ValidateIdempotent | song_editor/export/json_exporter.py:74-78 | a validated document validates again and a second validation changes nothing |
| JsonExport.RepairBeforeFailure | song_editor/export/json_exporter.py:57-78 | validation can return False after it has already repaired earlier words in the caller's document |
| JsonExport.SongDocument.constructor | song_editor/export/json_exporter.py:242 | the document holds the caller's dict, which validation mutates in place |
| JsonExport.ValidateSongData | song_editor/export/json_exporter.py:33-84 | returns the schema verdict on the old document and leaves the document as the repair specification describes |
| JsonExport.Convert | song_editor/export/json_exporter.py:89-92 | str() succeeds on strings, None and booleans and keeps strings as they are; float() and int() succeed exactly on numbers, and int() truncates toward zero |
| JsonExport.ConvertIdempotent | song_editor/export/json_exporter.py:89-92 | converting an already converted value gives the same result |
| JsonExport.Source | song_editor/export/json_exporter.py:86-173 | a required field is always written (from its key or its default); an optional field is written iff its key is present, truthy, or a non-empty list, as its rule says, and then from the source value |
| JsonExport.WrittenCons | song_editor/export/json_exporter.py:86-173 | the written keys of a field list are those of its tail plus the first key when that field is written |
| JsonExport.CleanFields | song_editor/export/json_exporter.py:86-173 | cleaning succeeds iff every written field converts; its keys are exactly the written fields, each holding the converted source value |
| JsonExport.CleanFieldsIdempotent | song_editor/export/json_exporter.py:86-173 | cleaning a cleaned record gives the same record |
| JsonExport.RecleanedValues | song_editor/export/json_exporter.py:86-173 | cleaning a cleaned record succeeds and keeps every value |
| JsonExport.CleanedSources | song_editor/export/json_exporter.py:86-173 | in a cleaned record each field reads as its converted source value and converts again |
| JsonExport.WordFields | song_editor/export/json_exporter.py:86-105 | the word field list has distinct keys and contains alternatives only when alternatives are requested |
| JsonExport.ChordFields | song_editor/export/json_exporter.py:107-130 | the chord field list has distinct keys |
| JsonExport.NoteFields | song_editor/export/json_exporter.py:132-156 | the note field list has distinct keys |
| JsonExport.SegmentFields | song_editor/export/json_exporter.py:158-173 | the segment field list has distinct keys |
| JsonExport.KeyWritten | song_editor/export/json_exporter.py:86-173 | one field is in the cleaned record iff it is written, with its converted value |
| JsonExport.AllKeysWritten | song_editor/export/json_exporter.py:86-173 | every field is in the cleaned record iff it is written, with its converted value |
| JsonExport.CleanWordFields | song_editor/export/json_exporter.py:86-105 | a cleaned word always has text, start, end and confidence; chord iff the source chord is present and truthy (copied as is); alternatives iff requested and a non-empty list |
| JsonExport.CleanChordFields | song_editor/export/json_exporter.py:107-130 | a cleaned chord has its five required fields, with a missing symbol as ''; bass is present iff the key is, copied unconverted even when None |
| JsonExport.CleanNoteFields | song_editor/export/json_exporter.py:132-156 | a cleaned note has pitch, start and end; a missing pitch becomes 60 and the pitch is an integer; velocity iff the key is present |
| JsonExport.CleanSegmentFields | song_editor/export/json_exporter.py:158-173 | a cleaned segment has type, start and end; a missing type becomes 'other'; label iff the key is present |
| JsonExport.CleanAll | song_editor/export/json_exporter.py:185-205 | a list comprehension cleans every record in order, keeping the length, and fails iff one record's cleaning fails |
| JsonExport.SectionValue | song_editor/export/json_exporter.py:180-213 | a copied section (metadata, audio_analysis, processing_info) succeeds iff it is a dict or list, and is exported as the same value; a cleaned list keeps its length |
| JsonExport.IncludedCons | song_editor/export/json_exporter.py:175-215 | the included keys of a section list are those of its tail plus the first key when that section is included |
| JsonExport.Assemble | song_editor/export/json_exporter.py:175-215 | assembly succeeds iff every included section does; its keys are exactly the included ones, each holding its section value |
| JsonExport.SectionAssembled | song_editor/export/json_exporter.py:175-215 | one section is in the prepared data iff it is included, with its value |
| JsonExport.PrepareKeys | song_editor/export/json_exporter.py:175-215 | the prepared data takes only keys of the source; every present list is exported; audio_analysis and processing_info appear iff their flag is set and the key is present |
| JsonExport.SectionsDistinct | song_editor/export/json_exporter.py:175-215 | the seven exported sections have distinct keys |
| JsonExport.PrepareSections | song_editor/export/json_exporter.py:180-205 | the metadata is exported as the caller's value, and each list as its records cleaned one by one, in order, none dropped |
| JsonExport.AddExportMetadata | song_editor/export/json_exporter.py:217-240 | fails exactly when a metadata entry is present and not a dict; otherwise only the metadata entry changes: its keys are the old ones plus exported_at, export_format, export_version, exporter_info and (iff the path is non-empty) export_file, with those values, and every other key keeps its value |
| JsonExport.Export | song_editor/export/json_exporter.py:242-282 | returns True exactly when validation is off or the document is valid, preparing succeeds and the metadata can be stamped; an invalid document writes nothing (keeping the repairs made so far); otherwise the written value is the prepared document with its export metadata, and the caller's metadata is not changed |
| Lyrics.Row | song_editor/models/lyrics.py:7-18 | a row built from the required fields has no chord, no alternatives and line_break False, as the dataclass defaults say |
| LyricsEditor.NewWord | song_editor/ui/lyrics_editor.py:247-257 | a word created for list position k starts at 0.5·k, lasts half a second, has confidence 0.5 and no chord or alternatives |
| LyricsEditor.Synced | song_editor/ui/lyrics_editor.py:232-257 | after typing, the list has one word per whitespace token, spelling it; existing words keep their times, confidence and chord, extra words are dropped, missing ones are created at their position |
| LyricsEditor.Texts | song_editor/ui/lyrics_editor.py:181 | the texts of the words, in list order |
| LyricsEditor.SyncedSpells | song_editor/ui/lyrics_editor.py:232-257 | after a sync the words spell the typed tokens, and the exported text is those tokens joined by single spaces |
| LyricsEditor.SyncedIdempotent | song_editor/ui/lyrics_editor.py:232-257 | syncing the same text twice equals syncing it once |
| LyricsEditor.SyncOwnText | song_editor/ui/lyrics_editor.py:178-190 | when every word is one non-empty token, the text the editor shows syncs back to the same word list |
| LyricsEditor.Imported | song_editor/ui/lyrics_editor.py:414-429 | importing text makes one new word per whitespace token, at its position's default time |
| LyricsEditor.ExportImported | song_editor/ui/lyrics_editor.py:410-429 | exporting an imported text gives its tokens joined by single spaces, and importing that again gives the same words |
| LyricsEditor.ImportedContiguous | song_editor/ui/lyrics_editor.py:420-422 | each imported word ends where the next one starts |
| LyricsEditor.AlignSpan | song_editor/ui/lyrics_editor.py:359 | the span to align over is the loaded song's duration, or 60 seconds when no song is loaded |
| LyricsEditor.AlignedAt | song_editor/ui/lyrics_editor.py:362-364 | word i is given the i-th equal share of the span, with nothing else changed |
| LyricsEditor.Aligned | song_editor/ui/lyrics_editor.py:353-364 | aligning keeps the length and re-times every word to its share |
| LyricsEditor.StepsFill | song_editor/ui/lyrics_editor.py:360 | n shares of duration/n add up to the whole duration |
| LyricsEditor.AlignedTiles | song_editor/ui/lyrics_editor.py:353-364 | the re-timed words tile [0, duration] in equal contiguous spans in list order, keeping texts, confidences and chords |
| LyricsEditor.RaiseConfidence | song_editor/ui/lyrics_editor.py:380-383 | a word below 0.3 is raised to exactly 0.3; any other word is untouched |
| LyricsEditor.Raised | song_editor/ui/lyrics_editor.py:380-383 | every word of the list is fixed on its own, keeping the length and order |
| LyricsEditor.LowCount | song_editor/ui/lyrics_editor.py:377-383 | the number of fixed words is at most the number of words |
| LyricsEditor.LowCountStep | song_editor/ui/lyrics_editor.py:380-383 | the count grows by one exactly at a word below the threshold |
| LyricsEditor.RaisedIdempotent | song_editor/ui/lyrics_editor.py:375-399 | after the fix every confidence is at least 0.3 and none was lowered; a second fix changes nothing and reports "no fixes needed" |
| LyricsEditor.LowCountZero | song_editor/ui/lyrics_editor.py:385-399 | a list with no word below the threshold counts zero fixes |
| LyricsEditor.EditCell | song_editor/ui/lyrics_editor.py:263-296 | editing column 0 sets the text, 4 sets the chord (empty text clears it), 1-3 set start, end or confidence when the text parses as a number and otherwise leave the word as it was |
| LyricsEditor.ClearChordCell | song_editor/ui/lyrics_editor.py:282-283 | clearing the chord cell removes the chord; typing a chord then clearing it leaves the word chordless |
| LyricsEditor.Editor.constructor | song_editor/ui/lyrics_editor.py:27-31 | a new editor has no song and no words |
| LyricsEditor.Editor.OnTextChanged | song_editor/ui/lyrics_editor.py:232-261 | the word list becomes the synced list for the typed tokens; the song is unchanged |
| LyricsEditor.Editor.OnTableItemChanged | song_editor/ui/lyrics_editor.py:263-296 | only the edited row changes, as EditCell says; a row past the end is ignored |
| LyricsEditor.Editor.AddWord | song_editor/ui/lyrics_editor.py:298-323 | a "new_word" placeholder is inserted at the selected row, or appended when none is, timed for that position |
| LyricsEditor.Editor.DeleteWord | song_editor/ui/lyrics_editor.py:325-331 | the selected word is removed; an out-of-range row changes nothing |
| LyricsEditor.Editor.MoveWordUp | song_editor/ui/lyrics_editor.py:333-341 | the selected word swaps with the one before it; row 0 or no selection changes nothing |
| LyricsEditor.Editor.MoveWordDown | song_editor/ui/lyrics_editor.py:343-351 | the selected word swaps with the one after it; the last row changes nothing |
| LyricsEditor.Editor.AutoAlignTiming | song_editor/ui/lyrics_editor.py:353-367 | an empty list is left alone; otherwise the words are re-timed over the song's duration (or 60 s) |
| LyricsEditor.Editor.FixLowConfidence | song_editor/ui/lyrics_editor.py:375-399 | every confidence below 0.3 is raised to 0.3 and the returned count is the number of such words |
| LyricsEditor.Editor.ExportLyricsText | song_editor/ui/lyrics_editor.py:410-412 | the exported text is the word texts joined by single spaces |
| LyricsEditor.Editor.ImportLyricsText | song_editor/ui/lyrics_editor.py:414-432 | the list is replaced by one default-timed word per token |
| LyricsEditor.Editor.SetSongData | song_editor/ui/lyrics_editor.py:172-176 | the editor keeps the song and a new list of its words |
| LyricsEditor.Editor.GetWords | song_editor/ui/lyrics_editor.py:401-403 | returns the current words |
| LyricsEditor.Editor.SetWords | song_editor/ui/lyrics_editor.py:405-408 | replaces the words, keeping the song |
| Melody.MidiToNoteNameExamples | song_editor/core/melody_extractor.py:210-214 | MIDI 60 is "C4", 21 is "A0", 69 is "A4" and 108 is "C8" |
| Melody.NoteNameShape | song_editor/core/melody_extractor.py:52 | every pitch-class name is one or two characters with no digit at either end, so the octave digits that follow are unambiguous |
| Melody.OctaveUp | song_editor/core/melody_extractor.py:210-214 | raising a pitch by twelve keeps its pitch-class name and raises the printed octave by one |
| Melody.BasicPitchNote | song_editor/core/melody_extractor.py:81-107 | an event is kept iff its truncated pitch is in range, it lasts at least the minimum duration and min(1, amplitude/0.5) reaches the minimum confidence; the note keeps the event's times, has velocity int(amplitude·127) and confidence at most 1 |
| Melody.OptionToSeq | song_editor/core/melody_extractor.py:107 | a kept note contributes one element, a dropped event none |
| Melody.BasicPitchNotes | song_editor/core/melody_extractor.py:80-109 | the kept notes are no more than the events, and each is in range, long enough and confident enough |
| Melody.BasicPitchKeepsAll | song_editor/core/melody_extractor.py:80-109 | when every event passes all filters none is lost |
| Melody.BasicPitchStep | song_editor/core/melody_extractor.py:80-107 | the notes of a suffix are the first event's note (if kept) followed by the notes of the rest |
| Melody.KeepEvent | song_editor/core/melody_extractor.py:86-107 | one pass of the event loop, with the filters in the source's nesting, yields the event's note exactly when it is kept |
| Melody.BasicPitchLoop | song_editor/core/melody_extractor.py:80-109 | the event loop returns the kept events' notes, in event order |
| Melody.MaskPitch | song_editor/core/melody_extractor.py:146-148 | an out-of-range MIDI number becomes 0, an in-range one is kept |
| Melody.Close | song_editor/core/melody_extractor.py:165-173 | closing the open note at time t emits it iff it lasted at least the minimum duration, ending at t, with its first frame's confidence and velocity int(confidence·127) |
| Melody.SequentialAppend | song_editor/core/melody_extractor.py:151-204 | two time-ordered, non-overlapping note lists, the second starting after the first ends, concatenate to one |
| Melody.CrepeFromSequential | song_editor/core/melody_extractor.py:154-202 | the notes the state machine emits from any frame on are time-ordered, non-overlapping and start no earlier than the open note |
| Melody.CrepeFromNotesOk | song_editor/core/melody_extractor.py:154-202 | with masked pitches, every emitted note is in range, long enough, confident enough and has velocity int(conf·127) |
| Melody.CrepeNotesSpec | song_editor/core/melody_extractor.py:150-204 | the CREPE notes are time-ordered and non-overlapping, in the pitch range, long enough, confident enough, with velocity int(conf·127) |
| Melody.CrepeLoop | song_editor/core/melody_extractor.py:146-204 | the frame loop with its mutable current note returns the state machine's notes over the masked pitches |
| Melody.CrepeStart | song_editor/core/melody_extractor.py:155-163 | a valid frame with no open note opens one at that frame |
| Melody.CrepeSwitch | song_editor/core/melody_extractor.py:164-180 | a valid frame of another pitch closes the open note at that time and opens a new one |
| Melody.CrepeHold | song_editor/core/melody_extractor.py:155-164 | a valid frame of the same pitch leaves the open note running |
| Melody.CrepeEnd | song_editor/core/melody_extractor.py:181-192 | an invalid frame closes the open note at that frame's time |
| Melody.CrepeIdle | song_editor/core/melody_extractor.py:181-183 | an invalid frame with no open note does nothing |
| Melody.FilterByDuration | song_editor/core/melody_extractor.py:244-246 | a note is kept exactly when it is in the input and lasts at least the minimum duration |
| Melody.FilterIdempotent | song_editor/core/melody_extractor.py:244-246 | filtering twice filters nothing more |
| Melody.FilterAppend | song_editor/core/melody_extractor.py:244-246 | the filter distributes over concatenation, so it keeps the order |
| Melody.MergeFrom | song_editor/core/melody_extractor.py:222-242 | the merged run starts with the running note's pitch and start and has at most one note per input note |
| Melody.MergeNotes | song_editor/core/melody_extractor.py:216-242 | the merge never lengthens the list; empty input gives empty output and non-empty gives non-empty |
| Melody.MergeWithoutNeighbours | song_editor/core/melody_extractor.py:224-237 | without a same-pitch neighbour pair closer than the gap the merge changes nothing |
| Melody.MergeFromOrigins | song_editor/core/melody_extractor.py:224-240 | every merged note starts where an input note starts, with that note's pitch |
| Melody.MergeFromStep | song_editor/core/melody_extractor.py:226-237 | a continuing neighbour is absorbed into the running note; otherwise the running note is emitted and the neighbour becomes the running note |
| Melody.MergeSimilarNotes | song_editor/core/melody_extractor.py:216-242 | the loop with its current-note accumulator returns the merge of the notes |
| Melody.AbsorbStep | song_editor/core/melody_extractor.py:226-233 | the loop step that absorbs the next note keeps the merge's result |
| Melody.KeepStep | song_editor/core/melody_extractor.py:234-237 | the loop step that starts a new run keeps the merge's result |
| Melody.InsertByStart | song_editor/core/melody_extractor.py:345 | inserting a note keeps the list sorted by start and adds exactly that note |
| Melody.SortByStart | song_editor/core/melody_extractor.py:345 | the sorted list is ordered by start and a permutation of the input |
| Melody.InsertLast | song_editor/core/melody_extractor.py:345 | a note starting no earlier than every other goes last, as a stable sort places it |
| Melody.SortSortedNoop | song_editor/core/melody_extractor.py:345 | sorting notes already in start order changes nothing (stability) |
| Melody.Extract | song_editor/core/melody_extractor.py:338-345 | the result is the engine's notes filtered by duration, merged and sorted: it is sorted by start, no longer than the filtered list, and non-empty iff some input note is long enough |
| MelodyEditor.FilterShort | song_editor/ui/melody_editor.py:451-454 | the kept notes are at least 0.1 s long, in their order, and a list with no short note is kept whole |
| MelodyEditor.FilterShortRemoves | song_editor/ui/melody_editor.py:452-456 | the number removed is the number of short notes, and filtering again removes nothing |
| MelodyEditor.FilterShortMembers | song_editor/ui/melody_editor.py:454 | a note is kept exactly when it is in the list and at least 0.1 s long |
| MelodyEditor.CollapseNotes | song_editor/ui/melody_editor.py:474-495 | the merged list is no longer than the input, starts with the first note's pitch and start, and has no same-pitch neighbours within 0.1 s left |
| MelodyEditor.CollapseNotesEnds | song_editor/ui/melody_editor.py:482-495 | the first merged note is the first input note stretched to a new end, and the last merged note ends where the last input note ends |
| MelodyEditor.CollapseNotesNoJoins | song_editor/ui/melody_editor.py:482-494 | a list with no continuing neighbours is left as it is |
| MelodyEditor.CollapseNotesIdempotent | song_editor/ui/melody_editor.py:474-495 | merging a merged list changes nothing |
| MelodyEditor.Pitches | song_editor/ui/melody_editor.py:521-523 | the pitches of the notes, in order |
| MelodyEditor.CollapseNotesDistinctPitches | song_editor/ui/melody_editor.py:487 | notes whose neighbouring pitches all differ are never merged |
| MelodyEditor.MergeStep | song_editor/ui/melody_editor.py:487-492 | a loop pass that absorbs the next note (takes its end, deletes it) leaves the merged result unchanged |
| MelodyEditor.KeepStep | song_editor/ui/melody_editor.py:493-494 | a loop pass that moves on leaves the merged result unchanged |
| MelodyEditor.LastStep | song_editor/ui/melody_editor.py:482 | when the loop reaches the last note the list is merged |
| MelodyEditor.ImportedNote | song_editor/ui/melody_editor.py:529-541 | imported note i has the pitch and its name, starts at 0.5·i, lasts 0.5 s, velocity 80, confidence 0.5, method "imported" |
| MelodyEditor.ImportPitches | song_editor/ui/melody_editor.py:525-542 | importing makes one note per pitch, in order |
| MelodyEditor.ExportImport | song_editor/ui/melody_editor.py:521-542 | exporting an imported melody gives back its pitches |
| MelodyEditor.ImportContiguous | song_editor/ui/melody_editor.py:530-531 | each imported note ends where the next starts |
| MelodyEditor.MaxPitch | song_editor/ui/melody_editor.py:290-291 | the highest pitch bounds every note's pitch and is some note's pitch |
| MelodyEditor.MinPitch | song_editor/ui/melody_editor.py:290-291 | the lowest pitch is below every note's pitch and is some note's pitch |
| MelodyEditor.Statistics | song_editor/ui/melody_editor.py:285-295 | the panel shows the note count, the largest pitch difference between two notes (attained), and the mean length; an empty list shows zeros |
| MelodyEditor.MonotoneRange | song_editor/ui/melody_editor.py:291 | notes all of one pitch give a range of zero |
| MelodyEditor.NewNote | song_editor/ui/melody_editor.py:392-406 | a note added from the controls carries their pitch (and its name, pitch class then octave pitch div 12 minus 1), times and velocity, confidence 0.5 and method "manual" |
| MelodyEditor.Editor.constructor | song_editor/ui/melody_editor.py:28-33 | a new editor has no notes |
| MelodyEditor.Editor.AddNote | song_editor/ui/melody_editor.py:384-416 | the new note is inserted at the selected row, or appended when none is |
| MelodyEditor.Editor.DeleteNote | song_editor/ui/melody_editor.py:418-424 | the selected note is removed; an out-of-range row changes nothing |
| MelodyEditor.Editor.MoveNoteUp | song_editor/ui/melody_editor.py:426-434 | the selected note swaps with the one before; row 0 or no selection changes nothing |
| MelodyEditor.Editor.MoveNoteDown | song_editor/ui/melody_editor.py:436-444 | the selected note swaps with the one after; the last row changes nothing |
| MelodyEditor.Editor.FilterShortNotes | song_editor/ui/melody_editor.py:446-472 | the short notes are removed and the returned count is how many |
| MelodyEditor.Editor.MergeSimilarNotes | song_editor/ui/melody_editor.py:474-510 | the in-place loop leaves the merged list, and the returned count is how many notes were absorbed |
| MelodyEditor.Editor.GetNotes | song_editor/ui/melody_editor.py:512-514 | returns the current notes |
| MelodyEditor.Editor.SetNotes | song_editor/ui/melody_editor.py:516-519 | replaces the notes |
| MelodyEditor.Editor.ExportMelody | song_editor/ui/melody_editor.py:521-523 | returns the notes' pitches in order |
| MelodyEditor.Editor.ImportMelody | song_editor/ui/melody_editor.py:525-545 | the list is replaced by one default note per pitch |
| SongMetadata.TranscriptionToDict | song_editor/models/metadata.py:25-45 | the dict always has the model and both flags; model_size and language appear iff truthy, threshold and processing time iff not None, each with the record's value |
| SongMetadata.TranscriptionFromDict | song_editor/models/metadata.py:47-58 | missing keys default to model '', word_timestamps True and alternatives False; the optional fields are taken as given |
| SongMetadata.TranscriptionRoundTrip | song_editor/models/metadata.py:25-58 | a transcription record survives to_dict then from_dict iff its size and language are each absent or non-empty |
| SongMetadata.ZeroToNone | song_editor/models/metadata.py:83-87 | a truthiness-gated integer survives iff it is non-zero; otherwise it comes back as None |
| SongMetadata.EmptyToNone | song_editor/models/metadata.py:80-81 | a truthiness-gated string survives iff it is non-empty; otherwise it comes back as None |
| SongMetadata.AudioProcessingToDict | song_editor/models/metadata.py:72-92 | the dict always has the three flags; separation model, sample rate and channels appear iff truthy, processing time iff not None |
| SongMetadata.AudioProcessingFromDict | song_editor/models/metadata.py:94-105 | the three flags default to False; the optional fields are taken as given |
| SongMetadata.AudioProcessingRoundTrip | song_editor/models/metadata.py:72-105 | a round trip turns an empty separation model and a zero sample rate or channel count into None and keeps everything else; the record survives iff it has none of those |
| SongMetadata.MetadataToDict | song_editor/models/metadata.py:129-166 | version and created_at are always written; the text fields and year iff truthy, duration iff not None, the nested records iff present and custom fields iff non-empty |
| SongMetadata.PostInit | song_editor/models/metadata.py:124-127 | a missing creation time is filled with the clock reading, an empty one is kept, and nothing else changes |
| SongMetadata.MetadataFromDict | song_editor/models/metadata.py:168-187 | version defaults to "3.0.0", created_at to the clock reading (through __post_init__), custom fields to {}; nested records are read iff their dict is truthy |
| SongMetadata.MetadataRoundTrip | song_editor/models/metadata.py:129-187 | from_dict(to_dict(m)) gives back m exactly when m has a creation time and none of its truthiness-gated fields is empty or zero, whatever the clock reads |
| SongMetadata.TopFieldsBack | song_editor/models/metadata.py:131-155 | the record's own fields come back exactly when they survive their gates |
| SongMetadata.TranscriptionBack | song_editor/models/metadata.py:157-158 | the nested transcription comes back exactly when it survives its own round trip |
| SongMetadata.AudioProcessingBack | song_editor/models/metadata.py:160-161 | the nested audio-processing record comes back exactly when it survives its own round trip |
| SongMetadata.Validate | song_editor/models/metadata.py:272-297 | each error is reported iff its condition holds: empty version, missing or empty created_at, version not starting with "3.", year outside 1900-2100, duration not positive; at most five errors, in check order |
| SongMetadata.EmptyVersionTwoErrors | song_editor/models/metadata.py:277-285 | an empty version fails both the presence and the format check |
| SongMetadata.DefaultVersionValid | song_editor/models/metadata.py:272-297 | a record with the default version and a creation time, and no out-of-range year or duration, has no errors |
| SongMetadata.GetBasicInfo | song_editor/models/metadata.py:236-258 | title, artist, album, year and genre appear iff truthy; duration iff not None |
| SongMetadata.BasicInfoIsDictPart | song_editor/models/metadata.py:236-258 | the basic information is exactly the matching part of to_dict |
| SongMetadata.Metadata.constructor | song_editor/models/metadata.py:108-127 | a new record holds the given values after __post_init__, so it always has a creation time |
| SongMetadata.Metadata.SetTitle | song_editor/models/metadata.py:189-191 | only the title changes |
| SongMetadata.Metadata.SetArtist | song_editor/models/metadata.py:193-195 | only the artist changes |
| SongMetadata.Metadata.SetAlbum | song_editor/models/metadata.py:197-199 | only the album changes |
| SongMetadata.Metadata.SetYear | song_editor/models/metadata.py:201-203 | only the year changes |
| SongMetadata.Metadata.SetGenre | song_editor/models/metadata.py:205-207 | only the genre changes |
| SongMetadata.Metadata.SetDuration | song_editor/models/metadata.py:209-211 | only the duration changes |
| SongMetadata.Metadata.SetTranscriptionInfo | song_editor/models/metadata.py:213-215 | only the transcription record changes |
| SongMetadata.Metadata.SetAudioProcessingInfo | song_editor/models/metadata.py:217-219 | only the audio-processing record changes |
| SongMetadata.Metadata.GetCustomField | song_editor/models/metadata.py:225-227 | a present key reads as its value, an absent one as the default |
| SongMetadata.Metadata.AddCustomField | song_editor/models/metadata.py:221-223 | the key then reads back as the value; other keys and all other fields are unchanged |
| SongMetadata.Metadata.RemoveCustomField | song_editor/models/metadata.py:229-234 | returns True iff the key was present; afterwards it is absent and everything else is unchanged |
| MidiTrack.LastTick | song_editor/export/midi_exporter.py:155-166 | `last_tick` is the tick of the last message appended, or its starting value when none was |
| MidiTrack.DeltasFrom | song_editor/export/midi_exporter.py:155-166 | turning placed messages into a track keeps every message and its order, each message carrying its distance from the previous one |
| MidiTrack.AbsoluteFrom | song_editor/export/midi_exporter.py:155-166 | reading a track's absolute ticks keeps every message and its order |
| MidiTrack.AbsoluteDeltasFrom | song_editor/export/midi_exporter.py:155-166 | reading back the ticks of a placement's deltas gives the placement |
| MidiTrack.AbsoluteDeltas | song_editor/export/midi_exporter.py:155-166 | the same from tick 0, where every track starts |
| MidiTrack.DeltasAbsoluteFrom | song_editor/export/midi_exporter.py:155-166 | conversely, the deltas of a track's placement give the track |
| MidiTrack.DeltasAppend | song_editor/export/midi_exporter.py:155-166 | the deltas of two placements in sequence: the second starts from the last tick of the first |
| MidiTrack.DeltasSnoc | song_editor/export/midi_exporter.py:160-166 | appending one message adds one delta, its distance from the previous last tick, and moves the last tick to it |
| MidiTrack.TotalAbsoluteFrom | song_editor/export/midi_exporter.py:155-166 | a track ends on the sum of its deltas |
| MidiTrack.AbsoluteAppend | song_editor/export/midi_exporter.py:155-166 | the placement of two tracks in sequence: the second starts where the first ends |
| MidiTrack.MonotoneDeltas | song_editor/export/midi_exporter.py:155-166 | a placement that never moves backwards has no negative delta, as a MIDI file requires |
| MidiTrack.DeltaAt | song_editor/export/midi_exporter.py:155-166 | each delta is the step from the previous message's tick, the first from the track's start |
| MidiTrack.AtTick | song_editor/export/midi_exporter.py:196-197 | a group of messages all placed at one tick |
| MidiTrack.Carry | song_editor/export/midi_exporter.py:196-203 | a group whose first message carries one delta and the others another |
| MidiTrack.DeltasAtTick | song_editor/export/midi_exporter.py:196-197 | a group placed at one tick: the first message carries the whole step, the rest 0 |
| MidiTrack.AppendCarried | song_editor/export/midi_exporter.py:196-203 | the append loop adds the group with its first and later deltas |
| MidiTrack.AbsoluteCarry | song_editor/export/midi_exporter.py:201-203 | messages carried with a repeated delta land that many ticks apart |
| MidiTrack.TotalCarry | song_editor/export/midi_exporter.py:201-203 | and the group spans the first delta plus the repeated delta per later message |
| MidiTrack.LastTickAppend | song_editor/export/midi_exporter.py:155-166 | the last tick of two placements in sequence is that of the second, read from where the first ends |
| MidiExporter.ReplaceAbsent | song_editor/export/midi_exporter.py:68-69 | str.replace with a pattern that does not occur leaves the text as it is |
| MidiExporter.ReplaceIdentity | song_editor/export/midi_exporter.py:55-69 | replacing a pattern by itself leaves the text as it is |
| MidiExporter.NonLatin1Absent | song_editor/export/midi_exporter.py:52-69 | a key outside latin-1 cannot occur in latin-1 text |
| MidiExporter.ReplaceTableNoop | song_editor/export/midi_exporter.py:68-69 | a table none of whose entries changes the text leaves it unchanged |
| MidiExporter.Latin1Only | song_editor/export/midi_exporter.py:76-86 | the character loop keeps the length, keeps each latin-1 character and puts '?' for every other |
| MidiExporter.SanitizeWith | song_editor/export/midi_exporter.py:43-86 | the sanitised text is always latin-1 encodable |
| MidiExporter.SourceTable | song_editor/export/midi_exporter.py:52-66 | the replacement table as the dict literal spells it has distinct, non-empty keys in insertion order |
| MidiExporter.SanitizeKeepsLatin1 | song_editor/export/midi_exporter.py:43-75 | latin-1 text is returned unchanged (unless it contains the stray key) |
| MidiExporter.SanitizeTextForMidi | song_editor/export/midi_exporter.py:43-86 | the replacement loop followed by the encode check or the character loop computes the sanitised text |
| MidiExporter.ReplaceOther | song_editor/export/midi_exporter.py:68-69 | a one-character text is left alone by a pattern that does not start with its character |
| MidiExporter.CurlyApostropheAsWritten | song_editor/export/midi_exporter.py:57-58 | as written, a typographic apostrophe comes out as '?' |
| MidiExporter.IntendedTable | song_editor/export/midi_exporter.py:52-66 | the table with the curly quotes its comments describe has distinct keys |
| MidiExporter.ReplaceTableSplit | song_editor/export/midi_exporter.py:68-69 | applying a table is applying its first part, then the rest |
| MidiExporter.CurlyApostropheIntended | song_editor/export/midi_exporter.py:57-58 | with the intended table the apostrophe becomes "'" |
| MidiExporter.ReplaceCharMembers | song_editor/export/midi_exporter.py:68-69 | every character after a replacement came from the text or from the replacement |
| MidiExporter.ReplaceTableCovered | song_editor/export/midi_exporter.py:52-69 | text made of latin-1 characters and table keys is latin-1 after the replacements and gains no '?' |
| MidiExporter.IntendedNoQuestionMarks | song_editor/export/midi_exporter.py:43-86 | with the intended table, text of latin-1 characters and table keys loses nothing to the '?' fallback |
| MidiExporter.TimeToTicks | song_editor/export/midi_exporter.py:88-92 | non-negative inputs give a non-negative tick count |
| MidiExporter.TimeToTicksFloor | song_editor/export/midi_exporter.py:88-92 | the tick count is the floor of seconds·bpm/60·ticks per beat |
| MidiExporter.TimeToTicksMonotone | song_editor/export/midi_exporter.py:88-92 | later times never get fewer ticks |
| MidiExporter.OneSecondAt120 | song_editor/export/midi_exporter.py:88-92 | one second at 120 bpm and 480 ticks per beat is 960 ticks |
| MidiExporter.TempoUs | song_editor/export/midi_exporter.py:100-101 | a zero tempo raises, and so does a microsecond count outside 0..0xFFFFFF, the range of a set_tempo message (None); any count it gives fits that range |
| MidiExporter.TempoUsBounds | song_editor/export/midi_exporter.py:100 | the tempo is the whole number of microseconds in one beat |
| MidiExporter.TempoAt120 | song_editor/export/midi_exporter.py:100 | 120 bpm is 500000 microseconds per beat |
| MidiExporter.TempoUsRange | song_editor/export/midi_exporter.py:100-101 | a positive tempo fits set_tempo exactly when 60000000 < 0x1000000·bpm; a negative tempo down to -60000000 never does; a faster negative one truncates to 0 and does |
| MidiExporter.SlowestTempos | song_editor/export/midi_exporter.py:100-101 | 3 bpm is too slow for set_tempo; 4 bpm is 15000000 microseconds per beat |
| MidiExporter.TempoTrack | song_editor/export/midi_exporter.py:94-106 | the fixed tempo track holds the name, the tempo and 4/4, all at tick 0; it raises exactly when the tempo is zero or out of set_tempo's range |
| MidiExporter.VariableTempoEvents | song_editor/export/midi_exporter.py:108-145 | the variable tempo track holds its name, 4/4 at tick 0, then one tempo message per change |
| MidiExporter.VariableTempoSnoc | song_editor/export/midi_exporter.py:117-143 | each change with a valid tempo adds its tempo message at the tick of its time |
| MidiExporter.VariableTempoPlacement | song_editor/export/midi_exporter.py:133-141 | the k-th change sets its tempo at its time converted at a fixed 120 bpm |
| MidiExporter.CreateVariableTempoTrack | song_editor/export/midi_exporter.py:108-145 | the loop raises (None) iff some change's tempo is zero or out of set_tempo's range, and otherwise builds the intended placement's deltas |
| MidiExporter.LyricOf | song_editor/export/midi_exporter.py:157-166 | a word contributes at most one lyric, non-empty and latin-1, at the tick of its start; none when its text sanitises to "" |
| MidiExporter.LyricOfIs | song_editor/export/midi_exporter.py:162-166 | a word's lyric is its sanitised text at its start tick, or nothing |
| MidiExporter.LyricEvents | song_editor/export/midi_exporter.py:147-168 | the lyrics track is its name then at most one lyric per word |
| MidiExporter.LyricPlacement | song_editor/export/midi_exporter.py:156-166 | when every word has text, word k's lyric is message k+1 and lands on its start tick |
| MidiExporter.LyricEventsMonotone | song_editor/export/midi_exporter.py:155-166 | words in start order from time 0 give a placement that never moves backwards |
| MidiExporter.LyricsTrackValid | song_editor/export/midi_exporter.py:155-166 | such words give a lyrics track with no negative delta |
| MidiExporter.CreateLyricsTrack | song_editor/export/midi_exporter.py:147-168 | the loop, which moves last_tick only when a lyric is appended, builds the deltas of the intended placement |
| MidiExporter.AppendLyric | song_editor/export/midi_exporter.py:157-166 | one pass appends the word's lyric with its delta and moves last_tick to it |
| MidiExporter.RootMidi | song_editor/export/midi_exporter.py:226-235 | a known root maps into the fourth octave, 60-71 |
| MidiExporter.RootMidiReference | song_editor/export/midi_exporter.py:226-233 | the table knows exactly the seven naturals, the sharps but E# and B#, and the flats but Cb and Fb; a sharp is a key up and a flat a key down |
| MidiExporter.SplitSymbol | song_editor/export/midi_exporter.py:215-221 | the root is two characters iff the second is '#' or 'b', and root plus quality is the symbol |
| MidiExporter.Intervals | song_editor/export/midi_exporter.py:240-264 | every quality adds two or three rising intervals between 3 and 11 semitones |
| MidiExporter.GetChordNotes | song_editor/export/midi_exporter.py:209-266 | an empty symbol gives nothing; otherwise 3 or 4 rising notes in 60-82 on the table's root |
| MidiExporter.ChordNotesEmpty | song_editor/export/midi_exporter.py:215-233 | a symbol gets no notes exactly when it is empty or its root is not in the table |
| MidiExporter.MajorTriadVoicing | song_editor/export/midi_exporter.py:241-243 | C is voiced 60, 64, 67 |
| MidiExporter.MinorTriadVoicing | song_editor/export/midi_exporter.py:244-246 | Am is voiced 69, 72, 76 |
| MidiExporter.DiminishedTriadVoicing | song_editor/export/midi_exporter.py:256-258 | Bdim is voiced 71, 74, 77 |
| MidiExporter.AugmentedTriadVoicing | song_editor/export/midi_exporter.py:259-261 | Ebaug is voiced 63, 67, 71 |
| MidiExporter.DominantSeventhVoicing | song_editor/export/midi_exporter.py:247-249 | G7 is voiced 67, 71, 74, 77 |
| MidiExporter.MajorSeventhVoicing | song_editor/export/midi_exporter.py:253-255 | Bbmaj7 is voiced 70, 74, 77, 81 |
| MidiExporter.MinorSeventhVoicing | song_editor/export/midi_exporter.py:250-252 | F#min7 is voiced 66, 69, 73, 76 |
| MidiExporter.FallbackVoicings | song_editor/export/midi_exporter.py:232-264 | a slash chord falls back to its root's major triad, and an unknown root gives nothing |
| MidiChords.Ticked | song_editor/export/midi_exporter.py:179-200 | a chord record is read with start 0 and end start + 1 when missing; its start and duration are converted to ticks and its notes are the voicing of its symbol |
| MidiChords.TickedAll | song_editor/export/midi_exporter.py:179-200 | every chord record is read the same way, in order |
| MidiChords.NoteOns | song_editor/export/midi_exporter.py:196-197 | one note-on per voiced note, at velocity 60 |
| MidiChords.NoteOffs | song_editor/export/midi_exporter.py:201-203 | one note-off per voiced note, at velocity 0 |
| MidiChords.ChordHead | song_editor/export/midi_exporter.py:188-197 | a chord opens with its text event (when the symbol is non-empty) and one note-on per note |
| MidiChords.AppendChordAsWritten | song_editor/export/midi_exporter.py:180-205 | one pass as written: the text with the step from last_tick, the note-ons with 0, the note-offs with 0 then the whole duration each; last_tick becomes the chord's start tick |
| MidiChords.CreateChordsTrack | song_editor/export/midi_exporter.py:170-207 | the chords track as written is the fold of those passes after the track name |
| MidiChords.ChordEventsTicks | song_editor/export/midi_exporter.py:187-203 | as intended, the text and note-ons land on the chord's start tick and every note-off one chord duration later |
| MidiChords.ChordsEventsSnoc | song_editor/export/midi_exporter.py:179-205 | the intended placement grows chord by chord |
| MidiChords.HeadCarry | song_editor/export/midi_exporter.py:188-197 | the head carries the step on the text event, or on the first note-on when there is no text |
| MidiChords.ChordEventsCarry | song_editor/export/midi_exporter.py:185-203 | a chord's intended deltas: the step on its first message, the duration on its first note-off, 0 elsewhere |
| MidiChords.HeadThenOffs | song_editor/export/midi_exporter.py:185-203 | the same, from the two groups placed at the start tick and one duration later |
| MidiChords.ChordEventsLast | song_editor/export/midi_exporter.py:205 | after a chord the track ends on its note-offs, or its text when it has no notes, or where it was |
| MidiChords.ChordEventsPieces | song_editor/export/midi_exporter.py:185-203 | a chord's intended deltas split into text, note-ons and note-offs |
| MidiChords.ChordEventsDeltas | song_editor/export/midi_exporter.py:185-203 | the deltas of a chord's intended placement are the corrected chunk |
| MidiChords.ChordsStep | song_editor/export/midi_exporter.py:179-205 | placing one more chord extends the corrected track by its chunk and moves the last tick accordingly |
| MidiChords.VoicedChunk | song_editor/export/midi_exporter.py:188-203 | a chord with notes has a symbol, so its note-ons carry nothing; a chord without notes is its text alone |
| MidiChords.AppendChord | song_editor/export/midi_exporter.py:180-205 | one corrected pass: the note-offs land together and last_tick follows the last message appended |
| MidiChords.CreateChordsTrackCorrected | song_editor/export/midi_exporter.py:170-207 | the corrected track is the deltas of the intended placement |
| MidiChords.TwoChordsTicks | song_editor/export/midi_exporter.py:179-200 | C over [0, 1] s and Am over [1, 2] s at 120 bpm and 480 ticks per beat start at ticks 0 and 960 and last 960 ticks |
| MidiChords.DriftTrackShape | song_editor/export/midi_exporter.py:170-207 | as written, the track for C then Am is the head of C, its note-offs, then Am's chunk from last_tick 0 |
| MidiChords.DriftHeadTotal | song_editor/export/midi_exporter.py:188-197 | C's head is the name, text and three note-ons, all at tick 0 |
| MidiChords.DriftOffsPlaced | song_editor/export/midi_exporter.py:201-203 | as written, C's note-offs land on 0, 960 and 1920 instead of together on 960 |
| MidiChords.ChordsDriftAsWritten | song_editor/export/midi_exporter.py:170-207 | as written, Am's text lands on tick 2880 instead of 960 |
| MidiChords.ChordsEventsPrefix | song_editor/export/midi_exporter.py:179-205 | the first k chords' intended messages are a prefix of all of them |
| MidiChords.ChordPlacedCorrected | song_editor/export/midi_exporter.py:179-205 | chord k's intended messages sit in the placement right after those of the chords before it |
| MidiChords.ChordsNoDriftCorrected | song_editor/export/midi_exporter.py:170-207 | corrected, C's note-offs land together on 960 and Am's text on 960 |
| MidiMelody.NoteEvents | song_editor/export/midi_exporter.py:278-294 | a note places two messages, the note-on and the note-off |
| MidiMelody.MelodyEvents | song_editor/export/midi_exporter.py:268-298 | the melody track is its name then two messages per note |
| MidiMelody.MelodyPlacement | song_editor/export/midi_exporter.py:277-296 | note k's note-on (pitch and velocity, defaults 60 and 80) lands on its start tick and its note-off one note duration later |
| MidiMelody.TimeToTicksSuperadditive | song_editor/export/midi_exporter.py:88-92 | the ticks of two stretches of time never exceed the ticks of both together |
| MidiMelody.NoteOffBeforeEnd | song_editor/export/midi_exporter.py:282-296 | a note's note-off lands no later than the tick of its end |
| MidiMelody.MelodyEventsMonotone | song_editor/export/midi_exporter.py:276-296 | non-overlapping notes in order, from time 0, give a placement that never moves backwards |
| MidiMelody.MelodyTrackValid | song_editor/export/midi_exporter.py:268-298 | such notes give a melody track with no negative delta |
| MidiMelody.AppendNote | song_editor/export/midi_exporter.py:277-296 | one pass appends the note-on with its step and the note-off with the duration, and last_tick moves to the note-off |
| MidiMelody.CreateMelodyTrack | song_editor/export/midi_exporter.py:268-298 | the loop builds the deltas of the intended placement |
| MidiFile.TempoMap | song_editor/export/midi_exporter.py:400-405 | building the tempo map raises exactly when its tempo, or one change's tempo on the variable path, is zero or out of set_tempo's range |
| MidiFile.TempoMapContents | song_editor/export/midi_exporter.py:400-405 | the tempo map holds the fixed tempo and 4/4 at tick 0, or on the variable path each change at its tick |
| MidiFile.Names | song_editor/export/midi_exporter.py:397-420 | the first message name of each track, in order |
| MidiFile.ExportFails | song_editor/export/midi_exporter.py:375-430 | export fails exactly when the tempo map is included and cannot be built or saved, or an included lyrics, chords or melody track holds a message mido refuses or a negative delta |
| MidiFile.ExportTrackNames | song_editor/export/midi_exporter.py:397-420 | an exported file has the configured resolution and one named track per included, non-empty part, in the order tempo map, lyrics, chords, melody |
| MidiFile.AssembleNames | song_editor/export/midi_exporter.py:399-420 | assembling named tracks gives the names of the included parts in order |
| MidiFile.Export | song_editor/export/midi_exporter.py:375-430 | the mido path builds the exported file, or fails where building or saving a track raises |
| MidiFile.ExportAssembled | song_editor/export/midi_exporter.py:397-420 | the tracks export collects, in its order, make up the assembled file |
| MidiFile.ExportTempoTrack | song_editor/export/midi_exporter.py:400-446 | either path builds the tempo map |
| MidiFile.ExportTempoMap | song_editor/export/midi_exporter.py:432-457 | the tempo-map file holds only the tempo track, and fails exactly when that track cannot be built or saved |
| MidiFile.TempoMapIsExport | song_editor/export/midi_exporter.py:432-457 | the tempo-map file is the export of the song with only the tempo map included |
| MidiFile.AllSaveAppend | song_editor/export/midi_exporter.py:423 | a list of tracks saves exactly when both its parts do |
| MidiFile.VariableTempoSaves | song_editor/export/midi_exporter.py:117-145 | a variable tempo track of valid tempos saves exactly when the change ticks never move backwards from 0 |
| MidiFile.TempoMapSaves | song_editor/export/midi_exporter.py:400-405 | a built fixed tempo map always saves; on the variable path it saves exactly when the changes are in time order |
| MidiFile.LyricMessagesEncodable | song_editor/export/midi_exporter.py:147-168 | every message of the lyrics track is latin-1, since lyrics are sanitised |
| MidiFile.LyricsTrackSaves | song_editor/export/midi_exporter.py:147-168 | words in start order from time 0 give a lyrics track that saves |
| MidiFile.LyricsOutOfOrder | song_editor/export/midi_exporter.py:155-166 | a word landing before the previous word gives a negative delta and the save fails |
| MidiFile.MelodyTrackSaves | song_editor/export/midi_exporter.py:268-298 | a melody track that saves has every pitch and velocity in 0..127; sequential notes in that range give one that saves |
| MidiFile.TrackSavesAppend | song_editor/export/midi_exporter.py:423 | two tracks that save make one that saves |
| MidiFile.ChordsFoldSaves | song_editor/export/midi_exporter.py:170-207 | chords with latin-1 symbols, non-negative durations and start ticks in order from 0 give a chords track that saves, ending last_tick on the last start |
| MidiFile.ChunkSaves | song_editor/export/midi_exporter.py:185-205 | one chord's messages save when its symbol is latin-1, its duration non-negative and it starts no earlier than last_tick |
| MidiFile.ChordsTrackSaves | song_editor/export/midi_exporter.py:170-207 | chord records in start order from time 0, each ending no earlier than it starts and with a latin-1 symbol, give a chords track that saves |
| MidiFile.ChordTextAt | song_editor/export/midi_exporter.py:187-190 | every chord with a symbol puts that symbol in the track as a text event |
| MidiFile.ChordSymbolFails | song_editor/export/midi_exporter.py:187-190 | a chord symbol latin-1 cannot encode is written unsanitised, and the save fails |
| MidiExport.SecondsToTicks | song_editor/export/midi_export.py:12-14 | non-negative seconds at a positive tempo give a non-negative tick count |
| MidiExport.TicksAt120 | song_editor/export/midi_export.py:12-24 | at 120 bpm and 480 ticks per beat a second is 960 ticks, truncated toward zero |
| MidiExport.TruncMonotone | song_editor/export/midi_export.py:14 | int() truncation never reverses an order |
| MidiExport.TicksMonotone | song_editor/export/midi_export.py:12-14 | later times never get fewer ticks |
| MidiExport.Chunk | song_editor/export/midi_export.py:33-82 | one iteration appends its block's messages with no negative delta: the step is clamped at 0 and the duration at 1 |
| MidiExport.Fold | song_editor/export/midi_export.py:30-83 | the loop over blocks emits every block's messages with no negative delta, and last_tick ends at the last block's end |
| MidiExport.FoldSnoc | song_editor/export/midi_export.py:46-69 | one more block appends its chunk after last_tick and moves last_tick to the block's end |
| MidiExport.Msgs | song_editor/export/midi_export.py:34-82 | a track's messages without their deltas |
| MidiExport.FoldMessages | song_editor/export/midi_export.py:30-83 | whatever the times, the track holds every block's messages in order, none dropped or added |
| MidiExport.MsgsAppend | song_editor/export/midi_export.py:30-83 | messages distribute over concatenation |
| MidiExport.ChunkMessages | song_editor/export/midi_export.py:63-68 | a chunk carries its block's note-ons, then its note-offs |
| MidiExport.GroupDeltas | song_editor/export/midi_export.py:62-68 | a block's intended group after last_tick: the step on the first on, the duration on the first off |
| MidiExport.OnsThenOffs | song_editor/export/midi_export.py:62-69 | the same for ons at the start tick and offs at the end tick |
| MidiExport.ChunkNoClamp | song_editor/export/midi_export.py:62-68 | without clamping, the step and the duration are the plain differences |
| MidiExport.ChunkUnclamped | song_editor/export/midi_export.py:62-69 | without clamping, one iteration's chunk is the deltas of its intended group |
| MidiExport.FoldPlacement | song_editor/export/midi_export.py:46-69 | for blocks in order every message lands on its intended tick, and last_tick is the last message's tick |
| MidiExport.SingleChunk | song_editor/export/midi_export.py:33-34 | a one-message block: its message after the clamped step |
| MidiExport.PairChunk | song_editor/export/midi_export.py:79-82 | a note block: the note-on after the clamped step, the note-off after the clamped duration |
| MidiExport.SizeUniform | song_editor/export/midi_export.py:30-83 | blocks of m messages emit m messages each |
| MidiExport.FoldPrefix | song_editor/export/midi_export.py:30-83 | the track after the first j blocks is a prefix of the whole |
| MidiExport.FoldChunkAt | song_editor/export/midi_export.py:30-83 | block k's chunk sits right after the messages of the blocks before it |
| MidiExport.ChunkAtIndex | song_editor/export/midi_export.py:30-83 | with m messages per block, block k's chunk is at index m·k, after the previous block's end |
| MidiExport.ChunkAtIndexIs | song_editor/export/midi_export.py:30-83 | the same, for a chunk already worked out |
| MidiExport.LastBefore | song_editor/export/midi_export.py:35-83 | last_tick before block k is 0 or the previous block's end |
| MidiExport.LyricBlock | song_editor/export/midi_export.py:31-35 | a word is one lyrics message at its start tick, whatever its text, even empty |
| MidiExport.LyricBlocks | song_editor/export/midi_export.py:31-35 | one block per word, in order |
| MidiExport.LyricsTrackShape | song_editor/export/midi_export.py:28-35 | one lyric per word in order, each waiting the clamped distance from the previous word's start tick |
| MidiExport.LyricAt | song_editor/export/midi_export.py:31-35 | the lyric of word k |
| MidiExport.LyricsPlaced | song_editor/export/midi_export.py:31-35 | where the words are meant to land: each at its start tick |
| MidiExport.LyricsPlacementIs | song_editor/export/midi_export.py:31-35 | the lyric blocks' placement is the words at their start ticks |
| MidiExport.LyricsOnTime | song_editor/export/midi_export.py:28-35 | words in start order from time 0 each land exactly on their start tick |
| MidiExport.LyricBlocksSnoc | song_editor/export/midi_export.py:31-35 | the blocks grow word by word |
| MidiExport.AppendLyric | song_editor/export/midi_export.py:32-35 | one word appends its lyric after the clamped step and moves last_tick to its start |
| MidiExport.ExportLyricsTrack | song_editor/export/midi_export.py:28-35 | the lyrics loop builds the lyrics track |
| MidiExport.BeforeSlash | song_editor/export/midi_export.py:50 | the text before the first '/' |
| MidiExport.KeepRootChars | song_editor/export/midi_export.py:52 | the letters and sharps of the token, in order |
| MidiExport.RootOnly | song_editor/export/midi_export.py:50-56 | the root token is at most two characters, a prefix of the kept letters and sharps |
| MidiExport.RootKeyOf | song_editor/export/midi_export.py:41-57 | the key is in 60-71, and an unknown token falls back to C (60) |
| MidiExport.TriadNotes | song_editor/export/midi_export.py:59 | every chord is voiced as a major triad on its root key, whatever its quality |
| MidiExport.NoteOnsAt | song_editor/export/midi_export.py:63-65 | one note-on per note, at the given velocity |
| MidiExport.NoteOffsOf | song_editor/export/midi_export.py:67-68 | one note-off per note, at velocity 0 |
| MidiExport.ChordBlock | song_editor/export/midi_export.py:59-68 | a chord is three note-ons at velocity 64 at its start and three note-offs at its end |
| MidiExport.ChordBlocks | song_editor/export/midi_export.py:47-69 | one block per chord, in order |
| MidiExport.ChordChunk | song_editor/export/midi_export.py:60-68 | a chord's messages: the first note-on carries the clamped step, the first note-off the duration of at least one tick, the rest 0 |
| MidiExport.ChordsOnTime | song_editor/export/midi_export.py:37-69 | chords in order sound exactly from their start tick to their end tick |
| MidiExport.ChordBlocksSnoc | song_editor/export/midi_export.py:47-69 | the blocks grow chord by chord |
| MidiExport.AppendChord | song_editor/export/midi_export.py:48-69 | one chord appends its note-on loop and note-off loop and moves last_tick to its end |
| MidiExport.ExportChordTrack | song_editor/export/midi_export.py:37-69 | the chord loop builds the chord track |
| MidiExport.RootOnlyCorrected | song_editor/export/midi_export.py:50-56 | the evidently intended root: the first character and an accidental immediately after it |
| MidiExport.FlatNinthAsWritten | song_editor/export/midi_export.py:52-57 | as written, D7b9 is voiced on Db (61) instead of D (62) |
| MidiExport.SharpNinthAsWritten | song_editor/export/midi_export.py:52-57 | as written, A7#9 is voiced on A# (70) instead of A (69) |
| MidiExport.UnknownNinthAsWritten | song_editor/export/midi_export.py:52-57 | as written, E7#9 reads the unknown token E# and falls back to C (60) instead of E (64) |
| MidiExport.NinthKey | song_editor/export/midi_export.py:52-57 | as written, a dominant ninth is voiced on the key its root letter and extension accidental spell together |
| MidiExport.NinthRootToken | song_editor/export/midi_export.py:52-56 | the token read from a dominant ninth is the root letter then the extension's accidental |
| MidiExport.RootCorrected | song_editor/export/midi_export.py:50-57 | corrected, a symbol's root is its spelled root whatever follows |
| MidiExport.ExtensionAccidentalCorrected | song_editor/export/midi_export.py:50-57 | corrected, D7b9, A7#9 and E7#9 are voiced on D, A and E |
| MidiExport.RootKeyIgnoresBass | song_editor/export/midi_export.py:50 | a bass note after the slash never changes the voiced root |
| MidiExport.ClampPitch | song_editor/export/midi_export.py:80-82 | the pitch is clamped into 0-127 and kept when already in range |
| MidiExport.NoteBlock | song_editor/export/midi_export.py:77-82 | a melody note is a note-on at velocity 70 at its start and a note-off at its end |
| MidiExport.NoteBlocks | song_editor/export/midi_export.py:76-83 | one block per note, in order |
| MidiExport.MelodyTrackShape | song_editor/export/midi_export.py:71-83 | note k's note-on waits the clamped distance from the previous note's end, its note-off the clamped duration, both on the clamped pitch |
| MidiExport.MelodyOnTime | song_editor/export/midi_export.py:71-83 | notes in order sound exactly from their start tick to their end tick |
| MidiExport.NoteBlocksSnoc | song_editor/export/midi_export.py:76-83 | the blocks grow note by note |
| MidiExport.AppendNote | song_editor/export/midi_export.py:77-83 | one note appends its note-on and note-off and moves last_tick to its end |
| MidiExport.ExportMelodyTrack | song_editor/export/midi_export.py:71-83 | the melody loop builds the melody track |
| MidiExport.ExportTracks | song_editor/export/midi_export.py:17-83 | the file has 480 ticks per beat, the tempo track (500000 µs at tick 0), one lyric per word, then the chord track iff chords are given and non-empty, then the melody track iff given and non-empty |
| MidiExport.ExportMidi | song_editor/export/midi_export.py:17-83 | export_midi without the save builds the specified file |
| RhymeAnalysis.CleanWord | song_editor/ui/enhanced_lyrics_editor.py:48 | the cleaned word is no longer than the input and holds only word characters and whitespace |
| RhymeAnalysis.LettersOnly | song_editor/ui/enhanced_lyrics_editor.py:131 | the cleaned word is no longer than the input and holds only lower-case ASCII letters |
| RhymeAnalysis.Last | song_editor/ui/enhanced_lyrics_editor.py:143 | the last n characters of the word, or the whole word when it is shorter |
| RhymeAnalysis.VowelRuns | song_editor/ui/enhanced_lyrics_editor.py:59 | the number of vowel groups never exceeds the length, and a word with a vowel has at least one group |
| RhymeAnalysis.Syllables | song_editor/ui/enhanced_lyrics_editor.py:42-61 | a dictionary word counts the stressed phonemes of its first pronunciation; any other word counts its vowel groups, and never less than one |
| RhymeAnalysis.SyllableCounter.constructor | song_editor/ui/enhanced_lyrics_editor.py:38-40 | the counter starts with the given dictionary and an empty cache |
| RhymeAnalysis.SyllableCounter.CountSyllables | song_editor/ui/enhanced_lyrics_editor.py:42-61 | the answer is the same whether it comes from the cache or is computed, and the word's answer is then cached |
| RhymeAnalysis.RhymeKey | song_editor/ui/enhanced_lyrics_editor.py:128-143 | no letters give an empty key; a dictionary word gives the rhyming part of its first pronunciation; any other word gives its last three letters |
| RhymeAnalysis.LastVowelPhone | song_editor/ui/enhanced_lyrics_editor.py:157-158 | the phoneme found carries a stress digit and belongs to the pronunciation; none is found only when no phoneme has a digit |
| RhymeAnalysis.TrailingVowels | song_editor/ui/enhanced_lyrics_editor.py:163-165 | the result is the longest run of vowels that ends the word |
| RhymeAnalysis.LastVowelGroup | song_editor/ui/enhanced_lyrics_editor.py:163-165 | the last vowel group is a non-empty run of vowels; there is none only when the word has no vowel |
| RhymeAnalysis.NearRhymeKey | song_editor/ui/enhanced_lyrics_editor.py:147-166 | no letters give an empty key; a word not in the dictionary gives its last vowel group, or its last two letters when it has no vowel |
| RhymeAnalysis.RhymeClass | song_editor/ui/enhanced_lyrics_editor.py:248-254 | the target word itself, in any case, is never classed as a rhyme |
| RhymeAnalysis.OfClass | song_editor/ui/enhanced_lyrics_editor.py:247-254 | every word kept comes from the list and has the requested class |
| RhymeAnalysis.OfClassMembers | song_editor/ui/enhanced_lyrics_editor.py:247-254 | a word of the list is kept exactly when it has the requested class |
| RhymeAnalysis.FindRhymes | song_editor/ui/enhanced_lyrics_editor.py:170-259 | the perfect list holds exactly the perfect rhymes (among the library rhymes of the target, ignoring case) and the near list exactly the near rhymes that are not perfect, in list order |
| RhymeAnalysis.FindRhymesDisjoint | song_editor/ui/enhanced_lyrics_editor.py:248-254 | no word is in both lists, and the target word is in neither |
| RhymeAnalysis.Frequency | song_editor/ui/enhanced_lyrics_editor.py:90-98 | a word's frequency is the corpus count of its stripped, lower-cased spelling |
| RhymeAnalysis.InsertByKey | song_editor/ui/enhanced_lyrics_editor.py:102 | one insertion step adds exactly the new word to the list |
| RhymeAnalysis.SortByKey | song_editor/ui/enhanced_lyrics_editor.py:102 | the sort is a permutation of its input |
| RhymeAnalysis.SortByFrequency | song_editor/ui/enhanced_lyrics_editor.py:100-102 | sorting by frequency keeps exactly the same words |
| RhymeAnalysis.InsertKeepsOrder | song_editor/ui/enhanced_lyrics_editor.py:102 | inserting into a descending list keeps it descending and places the word after the earlier words of equal frequency |
| RhymeAnalysis.InsertMembers | song_editor/ui/enhanced_lyrics_editor.py:102 | every word after an insertion is the new word or an old one |
| RhymeAnalysis.InsertDescending | song_editor/ui/enhanced_lyrics_editor.py:102 | inserting into a descending list keeps it descending |
| RhymeAnalysis.InsertWithKey | song_editor/ui/enhanced_lyrics_editor.py:102 | among words of equal frequency, an insertion appends the new word at the end |
| RhymeAnalysis.SortByKeyCorrect | song_editor/ui/enhanced_lyrics_editor.py:100-102 | the sort orders words from most to least frequent and is stable: equally frequent words keep their input order |
| RhymeAnalysis.InsertDistinct | song_editor/ui/enhanced_lyrics_editor.py:102 | inserting a word whose spelling is new keeps spellings distinct |
| RhymeAnalysis.SortDistinct | song_editor/ui/enhanced_lyrics_editor.py:102 | sorting a list with distinct spellings keeps them distinct |
| RhymeAnalysis.Exclude | song_editor/ui/enhanced_lyrics_editor.py:281-288 | every candidate kept comes from the search, and is neither the word itself nor one of its perfect rhymes, compared in lower case |
| RhymeAnalysis.DedupLower | song_editor/ui/enhanced_lyrics_editor.py:289-296 | the result comes from the input, holds each lower-case spelling once, and loses no spelling of the input |
| RhymeAnalysis.DictPerfectRhymes | song_editor/ui/enhanced_lyrics_editor.py:261-267 | the result is the library's rhymes of the cleaned word, reordered |
| RhymeAnalysis.PerfectSet | song_editor/ui/enhanced_lyrics_editor.py:280 | a spelling is in the set exactly when a perfect rhyme has that spelling in lower case |
| RhymeAnalysis.DictNearRhymes | song_editor/ui/enhanced_lyrics_editor.py:271-277 | a word without a stress pattern has no near rhymes |
| RhymeAnalysis.DictNearRhymesFiltered | song_editor/ui/enhanced_lyrics_editor.py:271-298 | the near rhymes never hold the word or one of its perfect rhymes, hold each spelling once, come most frequent first, and keep candidate order among equally frequent words |
| Song.WordToDict | song_editor/models/song_data.py:24-39 | the dictionary always holds text, start, end and confidence; alternatives and chord appear only when they are truthy |
| Song.WordFromDict | song_editor/models/song_data.py:41-51 | missing text defaults to the empty string and missing times and confidence to 0.0; alternatives and chord are taken as found |
| Song.WordRoundTrip | song_editor/models/song_data.py:24-51 | a word survives to_dict then from_dict exactly when its alternatives and chord are each absent or non-empty |
| Song.ChordToDict | song_editor/models/song_data.py:67-89 | symbol, root, quality, start and end are always written; bass and detection method only when truthy; duration and confidence whenever they are present, even at 0.0 |
| Song.ChordFromDict | song_editor/models/song_data.py:91-104 | missing strings default to empty and missing times to 0.0; the optional fields are taken as found |
| Song.ChordRoundTrip | song_editor/models/song_data.py:67-104 | a chord round-trips exactly when its bass and detection method are each absent or non-empty |
| Song.NoteToDict | song_editor/models/song_data.py:119-142 | pitch, start and end are always written; pitch name and detection method only when truthy; duration, velocity and confidence whenever present |
| Song.NoteFromDict | song_editor/models/song_data.py:144-156 | a missing pitch defaults to 60 (middle C) and missing times to 0.0; the optional fields are taken as found |
| Song.NoteRoundTrip | song_editor/models/song_data.py:119-156 | a note round-trips exactly when its pitch name and detection method are each absent or non-empty |
| Song.SongToDict | song_editor/models/song_data.py:167-175 | the document keeps the metadata and converts every word, chord and note in order |
| Song.SongFromDict | song_editor/models/song_data.py:177-185 | missing metadata becomes an empty map and missing lists become empty; every element is converted in order |
| Song.SongRoundTrip | song_editor/models/song_data.py:167-207 | the word, chord and note counts always survive the round trip, and the whole document survives when every element does |
| Song.MaxOf | song_editor/models/song_data.py:190-194 | the maximum is one of the values and no value exceeds it |
| Song.GetDuration | song_editor/models/song_data.py:187-195 | the duration is the latest word end if there are words, else the latest chord end, else the latest note end, else 0.0 |
| Tally.Occ | song_editor/core/chord_detector.py:424-427 | a count never exceeds the list length and is positive exactly for elements of the list |
| Tally.OccAppend | song_editor/core/chord_detector.py:425-427 | appending an element adds one to its own count and leaves every other count alone |
| Tally.FirstIndex | song_editor/core/chord_detector.py:431 | the index found holds the element and no earlier position does |
| Tally.Bump | song_editor/core/chord_detector.py:427 | incrementing an existing key keeps the number of keys; a new key is appended with count 1 |
| Tally.BumpSpec | song_editor/core/chord_detector.py:427 | after one increment, only the bumped key's count changes, by one, and a new key sits last with count 1 |
| Tally.TallyDistinct | song_editor/core/chord_detector.py:424-427 | the counting dictionary never holds a key twice |
| Tally.BumpCounts | song_editor/core/chord_detector.py:425-427 | after each step every key's count is its number of occurrences in the prefix read so far |
| Tally.BumpCovers | song_editor/core/chord_detector.py:425-427 | after each step every element read so far is a key |
| Tally.BumpOrdered | song_editor/core/chord_detector.py:425-427 | keys stay in order of first occurrence, as a Python dictionary keeps insertion order |
| Tally.TallyCorrect | song_editor/core/chord_detector.py:424-427 | the finished tally holds each distinct element once, with its number of occurrences, in order of first occurrence |
| Tally.FirstIndexAppend | song_editor/core/chord_detector.py:425-427 | appending never moves an existing first occurrence, and a new element's first occurrence is at the end |
| Tally.FirstMax | song_editor/core/chord_detector.py:431 | the entry picked has the largest count, and every earlier entry has a strictly smaller one, as max keeps the first maximum |
| Tally.Insert | song_editor/core/chord_detector.py:450-454 | one step of the stable descending sort: the entry is added once and nothing else changes (same multiset plus the entry, one longer) |
| Tally.InsertDescending | song_editor/core/chord_detector.py:450-454 | inserting into a list in non-increasing order of count keeps it in non-increasing order |
| Tally.SortDesc | song_editor/core/chord_detector.py:450-454 | `sorted(d.items(), key=count, reverse=True)` is a permutation of the tally (same length, same multiset) in non-increasing order of count |
| Tally.TopK | song_editor/core/chord_detector.py:450-454 | the first k entries of the sorted tally, fewer when the tally is shorter, all taken from the tally, in non-increasing order of count |
| Tally.InsertRanked | song_editor/core/chord_detector.py:450-454 | the sort is stable: an entry inserted after entries that come earlier in the tally goes behind those of equal count, so the list stays ranked |
| Tally.SortRanked | song_editor/core/chord_detector.py:450-454 | sorting a tally whose keys come in first-seen order ranks it: distinct keys, larger counts first, equal counts in first-seen order |
| Tally.TopKBehind | song_editor/core/chord_detector.py:450-454 | under the ranking the sort follows, every entry the cut leaves out ranks behind every entry kept |
| Tally.ModeOfTally | song_editor/core/chord_detector.py:430-433 | the key picked is the most frequent element, first seen among equally frequent ones, and its count is its number of occurrences |
| Tally.ModeUnique | song_editor/core/chord_detector.py:431 | the key picked is determined: two such most frequent, first-seen elements are equal |
| Tally.TopKRanked | song_editor/core/chord_detector.py:444-454 | `sorted(..., reverse=True)[:k]` on a tally: every entry carries its true count; entries are distinct and ordered by count, ties by first occurrence (a stable sort); an element left out ranks behind every entry, and then there are k entries; the length is k or the number of distinct elements |
| Tally.TopKPairs | song_editor/core/chord_detector.py:450-454 | the entries taken are distinct and each is ahead of every later one: a larger count, or the same count and an earlier first occurrence |
| Tally.TopKLeftOut | song_editor/core/chord_detector.py:450-454 | an entry left out is behind every entry taken |
| Tally.TopKCovers | song_editor/core/chord_detector.py:450-454 | when fewer than k are taken, every key is taken |
| Tally.RankedUnique | song_editor/core/chord_detector.py:444-454 | the ranked description determines the list: two lists that meet it are equal |
| Tally.TallyNonEmpty | song_editor/core/chord_detector.py:430 | a non-empty list gives a non-empty tally, so a most common key always exists |
| Tally.CountLoop | song_editor/core/chord_detector.py:424-427 | the counting loop builds exactly the tally of the list, with true counts and first-occurrence order |
| Transcriber.DefaultPrompt | song_editor/core/transcriber.py:114-124 | the five named content types get a non-empty prompt; "general" and any unknown type get the empty prompt |
| Transcriber.EffectivePrompt | song_editor/core/transcriber.py:67-72 | a prompt passed in is kept; without one the content type's default prompt is used |
| Transcriber.OpenAiLoadSize | song_editor/core/transcriber.py:83 | OpenAI Whisper loads large-v2 in place of tiny, base and small, and the requested size otherwise |
| Transcriber.InitModel | song_editor/core/transcriber.py:78-108 | initialisation succeeds exactly when the requested backend or faster-whisper is installed; the requested backend is kept when installed, and otherwise the fallback is faster-whisper |
| Transcriber.InitModelStable | song_editor/core/transcriber.py:78-108 | initialising again with the backend the first call settled on succeeds and keeps that backend |
| Transcriber.Transcriber.constructor | song_editor/core/transcriber.py:52-76 | the settings are stored, the prompt is the effective prompt, and the backend is the one initialisation settles on |
| Transcriber.Transcriber.InitializeModel | song_editor/core/transcriber.py:78-112 | reports failure exactly when the source raises; on success the backend and loaded size are those initialisation chooses, and no other setting changes |
| Transcriber.ToWord | song_editor/core/transcriber.py:162-168 | an engine word becomes a word with stripped text, the same times, no alternatives, and confidence 0.5 when the engine gives none |
| Transcriber.Kept | song_editor/core/transcriber.py:170-172 | an engine word is kept exactly when its confidence reaches the threshold |
| Transcriber.ConfidentWords | song_editor/core/transcriber.py:160-174 | a backend never returns more words than the engine reported |
| Transcriber.ConfidentWordsSpec | song_editor/core/transcriber.py:160-315 | a word is returned exactly when the engine reported it with a confidence reaching the threshold, and every returned word has no alternatives |
| Transcriber.ConfidentWordsKeepAll | song_editor/core/transcriber.py:170-172 | when the threshold is not above any confidence, every engine word is returned |
| Transcriber.ConfidentWordsSnoc | song_editor/core/transcriber.py:170-172 | one more engine word extends the result by that word exactly when it is confident enough |
| Transcriber.CollectWords | song_editor/core/transcriber.py:160-174 | the backend's loop returns exactly the confident words, in engine order |
| Transcriber.Homophones | song_editor/core/transcriber.py:334-345 | each word of the table has exactly two readings, and any other word has none |
| Transcriber.GenerateAlternatives | song_editor/core/transcriber.py:328-355 | the alternatives are the table's readings of the lower-cased, stripped word, in table order, each at 0.8 of the word's confidence |
| Transcriber.AlternativesLessConfident | song_editor/core/transcriber.py:352 | for a word with positive confidence every alternative is strictly less confident than the word |
| Transcriber.Take | song_editor/core/transcriber.py:409 | the first n alternatives, or all of them when there are fewer |
| Transcriber.WithAlternatives | song_editor/core/transcriber.py:404-409 | with a positive count each word gets at most that many alternatives; with no positive count the words are unchanged; nothing but the alternatives changes |
| Transcriber.Candidates | song_editor/core/transcriber.py:369-374 | the requested backend is tried first; faster-whisper and OpenAI Whisper each fall back to the other, and any other model is tried alone |
| Transcriber.Dispatch | song_editor/core/transcriber.py:381-388 | a backend name runs that backend; any other name runs nothing and leaves the words unset |
| Transcriber.TryFromFirstSuccess | song_editor/core/transcriber.py:377-392 | the words returned come from the first candidate that returned words, and every earlier candidate raised or is not a backend |
| Transcriber.TryFromStopsAtWords | song_editor/core/transcriber.py:390-392 | a candidate that returns words ends the search, whatever later candidates would do |
| Transcriber.FasterFallsBackToOpenAi | song_editor/core/transcriber.py:369-398 | when faster-whisper raises, the result is OpenAI Whisper's words with alternatives, or, if that raises too, the error naming its failure |
| Transcriber.UnknownModelFails | song_editor/core/transcriber.py:373-401 | a model that is none of the four backends never yields words and ends in the "No transcription model succeeded" error |
| Transcriber.AttachAlternatives | song_editor/core/transcriber.py:404-409 | the in-place loop leaves each word with its truncated alternatives, as WithAlternatives states |
| Transcriber.Transcribe | song_editor/core/transcriber.py:357-420 | the method returns exactly what the fallback search and the alternatives step specify |

## Left out

- The engines are not modelled: Whisper, WhisperX, MLX and faster-whisper, Chordino, librosa chroma and beat tracking, `np.corrcoef`, Basic Pitch and CREPE prediction, noisereduce, pyloudnorm and Demucs. Their outputs are parameters, and `None` stands for an engine that raised.
- cmudict, `pronouncing` and the NLTK corpus counts are functions given by the caller. `RhymeAnalysis.ArePerfectRhymes` and `RhymeAnalysis.AreNearRhymes` follow the source's tests over those functions.
- Audio loading, temporary files, `_save_intermediate_files`, `cleanup`, `_log_memory_usage`, and the dB levels and crest factor of `_calculate_audio_levels` are left out: they are file I/O or floating-point measurement.
- File writing and reading are left out. The exporters return the document, text or message lists they would write. The importer takes the decoded JSON, and `find_song_data_file` is not modelled because it only checks paths on disk.
- The Gemini HTTP requests, base64/FLAC encoding, JSON decoding and `last_debug` text are left out. Replies, sample count and rate are parameters, and `time.sleep` calls are recorded as pauses instead of taken.
- Python's `float()`, `int()` and `str()` of decoded values are parameters wherever their result depends on float formatting.
- JsonExport.Convert: `str()` of a number or a list is treated as raising. Comparing a string start with a string end (which Python allows) is treated as a failed check.
- Timing, logging, `print`, `processing_time` fields and memory measurement are left out. `datetime.now()` and the absolute output path are parameters.
- The thread-pool branch of `batch.py` is left out as concurrency. Only the sequential branch is modelled. `save_results` and `main` are left out as file writing and command-line plumbing.
- Qt widgets, painting, signals, timers, dialogs and colouring are left out. So are the cell-edit handlers `on_table_item_changed` of the chord and melody editors, which parse Qt cell text. The lyrics editor's cell edit is modelled.
- `use_alternative_word`, the block view's context-menu action, is left out as widget interaction.
- The editors hold `Word`, `Chord` and `Note` objects that other widgets may share. The model holds them as value lists, so aliasing between widgets is not captured. The block view's recoloured words are copies in the model for the same reason.
- ChordEditor.Editor.AddChord: the symbol is the preview text computed from the selected root, quality and bass (`ChordEditor.SymbolPreview`). The widgets it is read from are parameters.
- The pretty_midi path of `MidiExporter.export` (`_create_pretty_midi`) is left out. Only the mido path is modelled.
- `export_lyrics_only` and `export_chordpro` in `export/ccli_exporter.py`, and `export_minimal`, `export_analysis_only` and `validate_json_file` in `export/json_exporter.py`, are left out. They are extra entry points outside the modelled core.
- The `get_*_info` reporting methods of the detectors, exporters and transcriber, and `get_processing_info`, `to_json` and `from_json` of `models/metadata.py`, are left out. They are constant tables or JSON text I/O.
- `analyze_melody` and `_analyze_melody_contour` are left out as floating-point statistics (mean and standard deviation).
- `detect` in `core/chord_detector.py` only dispatches to the engines. Its post-processing (confidence clamp and filter, merging) is modelled, and the engines' chord lists are parameters.
- FrameChords.Smooth: where several labels are equally frequent in a window, Python's choice depends on set iteration order. The contract allows any most frequent label. The loop picks the first seen.
- Characters are Dafny `char`. The shared text helpers `Common.IsSpace`, `Common.Lower`, `Common.Strip`, `Common.Split` and `Common.SplitOn` treat only ASCII whitespace as space and fold only ASCII letters. Python's `split()`, `strip()` and `lower()` also know Unicode whitespace, such as U+00A0, and non-ASCII letters. Every module that uses these helpers inherits the gap: `GeminiClient` (for example `GeminiClient.InferChords`), `LyricsEditor` (for example `LyricsEditor.Synced`), `ChordEditor` (for example `ChordEditor.ImportProgression`), `Transcriber` (for example `Transcriber.ToWord`), `CcliPunctuation`, `CcliText`, `CcliExport`, `EnhancedLyrics`, `RhymeAnalysis`, `ChordDetector`, `Melody` and `Batch`. `models/lyrics.py` and the importer compare characters as Dafny `char` without case folding.
- RhymeAnalysis.IsWordChar: Python's `\w` in `re.sub(r'[^\w\s]', '', ...)` (`ui/enhanced_lyrics_editor.py` lines 48, 117, 263 and 273) matches every Unicode letter and digit. The predicate accepts only ASCII letters, ASCII digits and '_'.
- RhymeAnalysis.KeepWordChars: drops non-ASCII letters that Python keeps, so "café" cleans to "caf" here and stays "café" in Python.
- RhymeAnalysis.CleanWord: inherits the ASCII-only `\w` of `RhymeAnalysis.KeepWordChars`, and so do the rhyme keys built from it.
- EnhancedLyrics.KeepLetters: `c.isalpha()` (`ui/enhanced_lyrics_editor.py` lines 1092-1108) is true for every Unicode letter. The model keeps ASCII letters and apostrophes only.
- EnhancedLyrics.CleanToken: the loop keeps what `EnhancedLyrics.KeepLetters` keeps, so a token's non-ASCII letters are dropped here and kept in Python.
- MidiExport.RootChar: `c.isalpha()` (`export/midi_export.py` line 52) is true for every Unicode letter. The predicate accepts ASCII letters and '#' only.
- MidiExport.KeepRootChars: drops non-ASCII letters, so `MidiExport.RootOnly` and `MidiExport.RootKeyOf` can read a different root. For "éD#" Python reads the unknown root "éD" and falls back to C (60), while the model reads "D#" (63).
- CcliExport.ChordLyricsTable: only the `include_timing = False` layout is modelled. The Time and Duration columns of the `include_timing = True` layout (`export/ccli_exporter.py` lines 158-160 and 185-201) are left out, because they are float formatting (`{seconds:05.2f}`, `{duration:.2f}`).
- LyricsEditor.Editor.SetSongData: `song_data.words.copy()` copies only the list. The editor's rows are the song's own word objects, so cell edits also change the song's words. The model keeps a separate list, so the song does not see those edits.
- LyricsEditor.Editor.AutoAlignTiming: its `word.start = ...` and `word.end = ...` writes land on word objects the song shares. The model re-times only the editor's list, so `get_duration` on the song does not see the new times.
- SongImport.AltText: a best alternative whose `text` is not a string (a number, say) is kept by Python. Here it ends the import with an error, because a word's alternative text is a string in the model.
- MidiMelody.MNote: a pitch or velocity that is not an integer (60.0, say) makes `mido.Message` raise. The fields are integers in the model, so that failure is not represented.
- MidiMelody.CreateMelodyTrack: mido refuses a pitch or velocity outside 0..127 when the note message is built. The model builds the track anyway and applies that check at the save step (`MidiFile.MsgEncodable`). For `export` and `export_tempo_map` the outcome is the same: False.
- MidiExporter.SanitizeTextForMidi: latin-1 encodability is modelled as a code point below 256.

## Findings

| source | as written | input that shows it | evidently intended | confidence | as-written member | corrected member |
|---|---|---|---|---|---|---|
| song_editor/core/chord_detector.py:222-225 | the "Dominant 7th" template marks offsets 0, 4, 7 and 11, the major seventh | any dominant seventh, e.g. G7: the G7 template has B, D, F# and G where the chord has F | the dominant seventh is offsets 0, 4, 7 and 10; `ChordDetector.TemplateOnes` builds that family | not executed | ChordDetector.SeventhAsWrittenIsMajorSeventh | ChordDetector.TemplateOnes |
| song_editor/export/midi_exporter.py:199-205 | each note-off after the first waits a whole chord duration, and `last_tick` is set to the chord's start tick | C over 0-1 s then Am over 1-2 s at 120 bpm, 480 ticks per beat: C's note-offs land on ticks 0, 960 and 1920, and Am's text on 2880 instead of 960 | all of a chord's notes stop together at its end, and the next chord starts on its own start tick | not executed | MidiChords.ChordsDriftAsWritten | MidiChords.ChordsNoDriftCorrected |
| song_editor/export/midi_export.py:52-57 | the root token keeps every letter and '#' of the part before '/', so an extension's accidental joins the root | D7b9 is voiced on Db (61), A7#9 on A# (70), and E7#9 reads E# and falls back to C (60) | the root is the first letter and an accidental directly after it | not executed | MidiExport.FlatNinthAsWritten | MidiExport.ExtensionAccidentalCorrected |
| song_editor/ui/block_view.py:368-395 | the click-to-word mapping measures each word as text plus a changed chord, but the box shows "<alt>" after a word with an alternative | words "a" (alternative "x") and "b": the box shows "a<x> b", and position 5, the "b", maps to no word | spans measured over the text actually shown | not executed | BlockView.FindWordMissesAfterAlternative | BlockView.FindWordCorrectedSpec |
| song_editor/services/gemini_client.py:249-285 | each pair appends the word before reading its chord, so when the chord's conversion raises, the chunk keeps one word more than its chords | a first chunk whose second chord is the bare string "G", then a chunk with chord "F": word "b" is returned paired with "F" | a word is kept only together with its chord, so word i stays with chord i | not executed | GeminiClient.MisalignedChunks | GeminiClient.PairsCorrectedAligned |
| song_editor/export/midi_exporter.py:55-58 | the smart-quote keys are plain '"' characters, and the two apostrophe lines, each written `'''`, open and close a triple-quoted string, so that string's text is the only apostrophe key | a typographic apostrophe (U+2019) is not latin-1, matches no key and becomes "?" | typographic quotes become '"' and typographic apostrophes become "'", so no latin-1 text with table characters loses anything to '?' | not executed | MidiExporter.CurlyApostropheAsWritten | MidiExporter.IntendedNoQuestionMarks |

In findings 2, 3, 5 and 6 the exporters and the Gemini client keep the code's as-written behaviour, so that they model what the program does. The corrected member beside each one states and proves the intended property. So does the chord template bank: `ChordDetector.ChordTemplates` holds the dominant-seventh family as written, and `ChordDetector.TemplateOnes` the intended one.
