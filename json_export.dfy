/** The JSON exporter (`export/json_exporter.py`): schema validation, which
    repairs zero-length words in the caller's document, record cleaning,
    the export document and its export metadata. Writing the file is not
    modelled: `Export` returns the document it would write. */
module JsonExport {
  import opened Common
  import opened JsonData
  import SongImport

  // ---------------------------------------------------------------------------
  // Validation

  /** What the timing check does with one word: reject it, accept it, or
      accept it after rewriting its end to start + 0.01. */
  datatype Check = Bad | Fine | Repair(fixed: Json)

  predicate HasWordKeys(f: map<string, Json>) {
    "text" in f && "start" in f && "end" in f && "confidence" in f
  }

  /** The checks on word i. A word that is not an object or lacks a key is
      rejected; so is one whose start and end cannot be compared as numbers,
      or whose start is after its end. */
  function CheckWord(w: Json): (c: Check)
    ensures c.Fine? <==> w.JObj? && HasWordKeys(w.fields) && IsNumber(w.fields["start"])
                         && IsNumber(w.fields["end"])
                         && NumberValue(w.fields["start"]) < NumberValue(w.fields["end"])
    ensures c.Repair? <==> w.JObj? && HasWordKeys(w.fields) && IsNumber(w.fields["start"])
                           && IsNumber(w.fields["end"])
                           && NumberValue(w.fields["start"]) == NumberValue(w.fields["end"])
    ensures c.Repair? ==> c.fixed == JObj(w.fields["end" := JNum(NumberValue(w.fields["start"]) + 0.01)])
  {
    match w
    case JObj(f) =>
      if !HasWordKeys(f) || !IsNumber(f["start"]) || !IsNumber(f["end"]) then Bad
      else
        var s := NumberValue(f["start"]);
        var e := NumberValue(f["end"]);
        if s > e then Bad
        else if s == e then Repair(JObj(f["end" := JNum(s + 0.01)]))
        else Fine
    case _ => Bad
  }

  /** Index of the first rejected word, or the number of words. */
  function FirstBad(ws: seq<Json>): (n: nat)
    ensures n <= |ws|
    ensures forall i :: 0 <= i < n ==> !CheckWord(ws[i]).Bad?
    ensures n < |ws| ==> CheckWord(ws[n]).Bad?
  {
    if ws == [] then 0
    else if CheckWord(ws[0]).Bad? then 0
    else
      var n := FirstBad(ws[1..]);
      assert forall i :: 1 <= i < |ws| ==> ws[i] == ws[1..][i - 1];
      1 + n
  }

  /** The words after the loop stopped before index n: zero-length words
      before n are repaired, everything else is as it was. */
  function RepairedWords(ws: seq<Json>, n: nat): (r: seq<Json>)
    ensures |r| == |ws|
    ensures forall i :: 0 <= i < |ws| ==> r[i] == (if i < n && CheckWord(ws[i]).Repair? then CheckWord(ws[i]).fixed else ws[i])
  {
    seq(|ws|, i requires 0 <= i < |ws| => if i < n && CheckWord(ws[i]).Repair? then CheckWord(ws[i]).fixed else ws[i])
  }

  /** The checks before the word loop: both sections, the three metadata
      keys and a list of words. */
  predicate HeaderOk(data: map<string, Json>) {
    "metadata" in data && "words" in data && SongImport.MetadataComplete(data["metadata"]) && data["words"].JList?
  }

  /** `_validate_song_data`'s verdict. */
  predicate ValidSpec(data: map<string, Json>) {
    HeaderOk(data) && FirstBad(data["words"].items) == |data["words"].items|
  }

  /** The caller's document after `_validate_song_data`: only the words
      checked before it stopped can have changed. */
  function RepairSpec(data: map<string, Json>): (r: map<string, Json>)
    ensures r.Keys == data.Keys
    ensures forall k :: k in data && k != "words" ==> r[k] == data[k]
    ensures !HeaderOk(data) ==> r == data
  {
    if HeaderOk(data) then
      var ws := data["words"].items;
      data["words" := JList(RepairedWords(ws, FirstBad(ws)))]
    else data
  }

  /** After a successful validation every word is an object with the four
      keys and numeric times, and ends strictly after it starts. */
  lemma ValidatedWordsHaveLength(data: map<string, Json>)
    requires ValidSpec(data)
    ensures var ws := RepairSpec(data)["words"].items;
            forall i :: 0 <= i < |ws| ==> CheckWord(ws[i]).Fine?
  {
    var ws := data["words"].items;
    var rs := RepairSpec(data)["words"].items;
    forall i | 0 <= i < |rs|
      ensures CheckWord(rs[i]).Fine?
    {
      if CheckWord(ws[i]).Repair? {
        var f := ws[i].fields;
        var s := NumberValue(f["start"]);
        assert rs[i] == JObj(f["end" := JNum(s + 0.01)]);
        assert rs[i].fields["start"] == f["start"];
      }
    }
  }

  /** A validated document validates again and is not changed a second
      time. */
  lemma ValidateIdempotent(data: map<string, Json>)
    requires ValidSpec(data)
    ensures ValidSpec(RepairSpec(data))
    ensures RepairSpec(RepairSpec(data)) == RepairSpec(data)
  {
    var r := RepairSpec(data);
    var rs := r["words"].items;
    ValidatedWordsHaveLength(data);
    assert "metadata" in r && r["metadata"] == data["metadata"];
    assert FirstBad(rs) == |rs|;
    assert RepairedWords(rs, |rs|) == rs;
  }

  /** Validation can fail after repairing: a zero-length word followed by a
      reversed one is rewritten, yet the verdict is False. */
  lemma RepairBeforeFailure()
    ensures var w0 := JObj(map["text" := JStr("a"), "start" := JNum(1.0), "end" := JNum(1.0),
                                  "confidence" := JNum(0.9)]);
            var w1 := JObj(map["text" := JStr("b"), "start" := JNum(3.0), "end" := JNum(2.0),
                                  "confidence" := JNum(0.9)]);
            var data := map["metadata" := SongImport.CompleteMetadata, "words" := JList([w0, w1])];
            !ValidSpec(data) && RepairSpec(data)["words"].items[0] != w0
  {
    var w0 := JObj(map["text" := JStr("a"), "start" := JNum(1.0), "end" := JNum(1.0), "confidence" := JNum(0.9)]);
    var w1 := JObj(map["text" := JStr("b"), "start" := JNum(3.0), "end" := JNum(2.0), "confidence" := JNum(0.9)]);
    var data := map["metadata" := SongImport.CompleteMetadata, "words" := JList([w0, w1])];
    assert SongImport.MetadataComplete(SongImport.CompleteMetadata);
    assert CheckWord(w0).Repair?;
    assert CheckWord(w1).Bad?;
    assert FirstBad([w1]) == 0;
    assert [w0, w1][1..] == [w1];
    assert FirstBad([w0, w1]) == 1;
    var fixed := CheckWord(w0).fixed;
    assert fixed.fields["end"] == JNum(1.01);
  }

  /** The caller's dictionary, which validation updates in place. */
  class SongDocument {
    var data: map<string, Json>

    constructor (data: map<string, Json>)
      ensures this.data == data
    {
      this.data := data;
    }
  }

  /** `_validate_song_data`: the word loop writes each repair into the
      caller's document as it goes, so a later rejection leaves the earlier
      repairs in place. */
  method ValidateSongData(doc: SongDocument) returns (ok: bool)
    modifies doc
    ensures ok == ValidSpec(old(doc.data))
    ensures doc.data == RepairSpec(old(doc.data))
  {
    var data := doc.data;
    if !HeaderOk(data) {
      return false;
    }
    var ws := data["words"].items;
    assert RepairedWords(ws, 0) == ws;
    assert data["words" := JList(ws)] == data;
    var i := 0;
    while i < |ws|
      invariant 0 <= i <= |ws|
      invariant forall k :: 0 <= k < i ==> !CheckWord(ws[k]).Bad?
      invariant doc.data == data["words" := JList(RepairedWords(ws, i))]
    {
      var c := CheckWord(ws[i]);
      if c.Bad? {
        assert FirstBad(ws) == i;
        return false;
      }
      if c.Repair? {
        assert RepairedWords(ws, i + 1) == RepairedWords(ws, i)[i := c.fixed];
        doc.data := doc.data["words" := JList(RepairedWords(ws, i)[i := c.fixed])];
      } else {
        assert RepairedWords(ws, i + 1) == RepairedWords(ws, i);
      }
      i := i + 1;
    }
    assert FirstBad(ws) == |ws|;
    return true;
  }

  // ---------------------------------------------------------------------------
  // Cleaning

  /** The conversion a cleaned field goes through: `str()`, `float()`,
      `int()`, or none. */
  datatype Conv = AsStr | AsFloat | AsInt | AsIs

  /** When a cleaned field is written: always (reading `get(key, default)`),
      when the key is present, when present and truthy, or when present and a
      non-empty list. */
  datatype Rule = Always(default: Json) | IfPresent | IfTruthy | IfNonEmptyList

  datatype Field = Field(key: string, conv: Conv, rule: Rule)

  /** A conversion applied to a value; `Err` where Python raises. */
  function Convert(conv: Conv, v: Json): (r: Result<Json>)
    ensures conv == AsStr ==> (r.Ok? <==> v.JStr? || v.JNull? || v.JBool?)
    ensures conv == AsStr && v.JStr? ==> r == Ok(v)
    ensures conv == AsFloat || conv == AsInt ==> (r.Ok? <==> IsNumber(v))
    ensures conv == AsFloat && r.Ok? ==> r.value == JNum(NumberValue(v))
    ensures conv == AsInt && r.Ok? ==> r.value.JNum? && r.value.n == r.value.n.Floor as real
                                       && AbsR(r.value.n) <= AbsR(NumberValue(v)) < AbsR(r.value.n) + 1.0
    ensures conv == AsIs ==> r == Ok(v)
  {
    match conv
    case AsStr =>
      (match v
       case JStr(_) => Ok(v)
       case JNull => Ok(JStr("None"))
       case JBool(b) => Ok(JStr(if b then "True" else "False"))
       case _ => Err("str"))
    case AsFloat => if IsNumber(v) then Ok(JNum(NumberValue(v))) else Err("float")
    case AsInt => if IsNumber(v) then Ok(JNum(Trunc(NumberValue(v)) as real)) else Err("int")
    case AsIs => Ok(v)
  }

  /** Converting a converted value changes nothing. */
  lemma ConvertIdempotent(conv: Conv, v: Json)
    requires Convert(conv, v).Ok?
    ensures Convert(conv, Convert(conv, v).value) == Convert(conv, v)
  {
    match conv
    case AsInt =>
      var n := Trunc(NumberValue(v));
      assert Convert(conv, v).value == JNum(n as real);
      assert Trunc(n as real) == n;
    case AsFloat =>
      assert Convert(conv, v).value == JNum(NumberValue(v));
    case AsStr =>
      assert Convert(conv, v).value.JStr?;
    case AsIs =>
  }

  /** The value a field is computed from, or None when it is not written. */
  function Source(src: map<string, Json>, f: Field): (r: Option<Json>)
    ensures f.rule.Always? ==> r.Some?
    ensures !f.rule.Always? ==> (r.Some? ==> f.key in src && r.value == src[f.key])
    ensures f.rule.IfPresent? ==> (r.Some? <==> f.key in src)
    ensures f.rule.IfTruthy? ==> (r.Some? <==> f.key in src && Truthy(src[f.key]))
    ensures f.rule.IfNonEmptyList? ==> (r.Some? <==> f.key in src && src[f.key].JList? && src[f.key].items != [])
  {
    match f.rule
    case Always(d) => Some(Get(src, f.key, d))
    case IfPresent => if f.key in src then Some(src[f.key]) else None
    case IfTruthy => if f.key in src && Truthy(src[f.key]) then Some(src[f.key]) else None
    case IfNonEmptyList =>
      if f.key in src && src[f.key].JList? && src[f.key].items != [] then Some(src[f.key]) else None
  }

  /** The keys a record's cleaning writes. */
  function Written(src: map<string, Json>, fs: seq<Field>): set<string> {
    set i | 0 <= i < |fs| && Source(src, fs[i]).Some? :: fs[i].key
  }

  predicate DistinctKeys(fs: seq<Field>) {
    forall i, j :: 0 <= i < j < |fs| ==> fs[i].key != fs[j].key
  }

  /** A field with a truthiness or list condition is copied unconverted, so
      cleaning keeps the condition true. */
  predicate WellFormed(fs: seq<Field>) {
    DistinctKeys(fs) && forall i :: 0 <= i < |fs| && !fs[i].rule.Always? && !fs[i].rule.IfPresent? ==> fs[i].conv == AsIs
  }

  /** A field's cleaning succeeds when it is not written or its conversion
      succeeds. */
  predicate Converts(src: map<string, Json>, f: Field) {
    Source(src, f).Some? ==> Convert(f.conv, Source(src, f).value).Ok?
  }

  /** The keys written for a non-empty field list: those of its tail, and
      its first key when that field is written. */
  lemma WrittenCons(src: map<string, Json>, fs: seq<Field>)
    requires fs != []
    ensures Written(src, fs) == Written(src, fs[1..]) + (if Source(src, fs[0]).Some? then {fs[0].key} else {})
  {
    forall k | k in Written(src, fs)
      ensures k in Written(src, fs[1..]) + (if Source(src, fs[0]).Some? then {fs[0].key} else {})
    {
      var i :| 0 <= i < |fs| && Source(src, fs[i]).Some? && fs[i].key == k;
      if i > 0 {
        assert fs[1..][i - 1].key == k;
      }
    }
    forall k | k in Written(src, fs[1..])
      ensures k in Written(src, fs)
    {
      var i :| 0 <= i < |fs[1..]| && Source(src, fs[1..][i]).Some? && fs[1..][i].key == k;
      assert fs[i + 1] == fs[1..][i];
    }
  }

  /** A record's cleaning: the dict of its written fields, each converted,
      or `Err` when one conversion raises. */
  function CleanFields(src: map<string, Json>, fs: seq<Field>): (r: Result<map<string, Json>>)
    ensures r.Ok? <==> forall i :: 0 <= i < |fs| ==> Converts(src, fs[i])
    ensures r.Ok? ==> r.value.Keys == Written(src, fs)
    ensures r.Ok? && DistinctKeys(fs) ==>
              forall i :: 0 <= i < |fs| && Source(src, fs[i]).Some? ==>
                r.value[fs[i].key] == Convert(fs[i].conv, Source(src, fs[i]).value).value
  {
    if fs == [] then Ok(map[])
    else
      var rest := CleanFields(src, fs[1..]);
      assert forall i :: 1 <= i < |fs| ==> fs[i] == fs[1..][i - 1];
      WrittenCons(src, fs);
      if rest.Err? then rest
      else match Source(src, fs[0])
        case None => rest
        case Some(v) =>
          match Convert(fs[0].conv, v)
          case Err(e) => Err(e)
          case Ok(c) => Ok(rest.value[fs[0].key := c])
  }

  /** Cleaning a cleaned record changes nothing. */
  lemma CleanFieldsIdempotent(src: map<string, Json>, fs: seq<Field>)
    requires WellFormed(fs)
    requires CleanFields(src, fs).Ok?
    ensures CleanFields(CleanFields(src, fs).value, fs) == CleanFields(src, fs)
  {
    var c := CleanFields(src, fs).value;
    CleanedSources(src, fs);
    RecleanedValues(src, fs);
    var cc := CleanFields(c, fs).value;
    assert Written(c, fs) == Written(src, fs);
    assert cc == c;
  }

  /** Cleaning a cleaned record again succeeds and keeps each value. */
  lemma RecleanedValues(src: map<string, Json>, fs: seq<Field>)
    requires WellFormed(fs)
    requires CleanFields(src, fs).Ok?
    ensures var c := CleanFields(src, fs).value;
            CleanFields(c, fs).Ok? && forall k :: k in CleanFields(c, fs).value ==> k in c && CleanFields(c, fs).value[k] == c[k]
  {
    var c := CleanFields(src, fs).value;
    CleanedSources(src, fs);
    var cc := CleanFields(c, fs).value;
    forall k | k in cc
      ensures k in c && cc[k] == c[k]
    {
      var i :| 0 <= i < |fs| && Source(c, fs[i]).Some? && fs[i].key == k;
      KeyWritten(src, fs, i);
      KeyWritten(c, fs, i);
      ConvertIdempotent(fs[i].conv, Source(src, fs[i]).value);
    }
  }

  /** In a cleaned record each field reads as its converted source value,
      and converts again. */
  lemma CleanedSources(src: map<string, Json>, fs: seq<Field>)
    requires WellFormed(fs)
    requires CleanFields(src, fs).Ok?
    ensures var c := CleanFields(src, fs).value;
            forall i :: 0 <= i < |fs| ==>
              Source(c, fs[i]) == (if Source(src, fs[i]).Some?
                                   then Some(Convert(fs[i].conv, Source(src, fs[i]).value).value) else None)
              && Converts(c, fs[i])
  {
    var c := CleanFields(src, fs).value;
    forall i | 0 <= i < |fs|
      ensures Source(c, fs[i]) == (if Source(src, fs[i]).Some?
                                   then Some(Convert(fs[i].conv, Source(src, fs[i]).value).value) else None)
      ensures Converts(c, fs[i])
    {
      var f := fs[i];
      KeyWritten(src, fs, i);
      if Source(src, f).Some? {
        ConvertIdempotent(f.conv, Source(src, f).value);
      }
    }
  }

  const Str0: Json := JStr("")
  const Zero: Json := JNum(0.0)

  /** `_clean_word_data`'s fields. */
  function WordFields(includeAlternatives: bool): (fs: seq<Field>)
    ensures WellFormed(fs)
    ensures forall i :: 0 <= i < |fs| ==> fs[i].key != "alternatives" || includeAlternatives
  {
    if includeAlternatives then
      [Field("text", AsStr, Always(Str0)), Field("start", AsFloat, Always(Zero)),
       Field("end", AsFloat, Always(Zero)), Field("confidence", AsFloat, Always(Zero)),
       Field("alternatives", AsIs, IfNonEmptyList), Field("chord", AsIs, IfTruthy)]
    else
      [Field("text", AsStr, Always(Str0)), Field("start", AsFloat, Always(Zero)),
       Field("end", AsFloat, Always(Zero)), Field("confidence", AsFloat, Always(Zero)),
       Field("chord", AsIs, IfTruthy)]
  }

  /** `_clean_chord_data`'s fields: the bass is copied unconverted. */
  function ChordFields(): (fs: seq<Field>)
    ensures WellFormed(fs)
  {
    [Field("symbol", AsStr, Always(Str0)), Field("root", AsStr, Always(Str0)),
     Field("quality", AsStr, Always(Str0)), Field("start", AsFloat, Always(Zero)),
     Field("end", AsFloat, Always(Zero)), Field("bass", AsIs, IfPresent),
     Field("duration", AsFloat, IfPresent), Field("confidence", AsFloat, IfPresent),
     Field("detection_method", AsStr, IfPresent)]
  }

  /** `_clean_note_data`'s fields: the pitch defaults to 60. */
  function NoteFields(): (fs: seq<Field>)
    ensures WellFormed(fs)
  {
    [Field("pitch_midi", AsInt, Always(JNum(60.0))), Field("start", AsFloat, Always(Zero)),
     Field("end", AsFloat, Always(Zero)), Field("pitch_name", AsStr, IfPresent),
     Field("duration", AsFloat, IfPresent), Field("velocity", AsInt, IfPresent),
     Field("confidence", AsFloat, IfPresent), Field("detection_method", AsStr, IfPresent)]
  }

  /** `_clean_segment_data`'s fields: the type defaults to 'other'. */
  function SegmentFields(): (fs: seq<Field>)
    ensures WellFormed(fs)
  {
    [Field("type", AsStr, Always(JStr("other"))), Field("start", AsFloat, Always(Zero)),
     Field("end", AsFloat, Always(Zero)), Field("label", AsStr, IfPresent),
     Field("confidence", AsFloat, IfPresent)]
  }

  /** Field i of a record with distinct keys is in its cleaning exactly
      when it is written, with its converted value. */
  lemma KeyWritten(src: map<string, Json>, fs: seq<Field>, i: nat)
    requires CleanFields(src, fs).Ok? && DistinctKeys(fs) && i < |fs|
    ensures fs[i].key in CleanFields(src, fs).value <==> Source(src, fs[i]).Some?
    ensures Source(src, fs[i]).Some? ==>
              CleanFields(src, fs).value[fs[i].key] == Convert(fs[i].conv, Source(src, fs[i]).value).value
  {
    var r := CleanFields(src, fs).value;
    if fs[i].key in r {
      var j :| 0 <= j < |fs| && Source(src, fs[j]).Some? && fs[j].key == fs[i].key;
      assert j == i;
    }
  }

  /** Every field of a record with distinct keys is in its cleaning
      exactly when it is written, with its converted value. */
  lemma AllKeysWritten(src: map<string, Json>, fs: seq<Field>)
    requires CleanFields(src, fs).Ok? && DistinctKeys(fs)
    ensures var r := CleanFields(src, fs).value;
            forall i :: 0 <= i < |fs| ==>
              (fs[i].key in r <==> Source(src, fs[i]).Some?)
              && (Source(src, fs[i]).Some? ==> r[fs[i].key] == Convert(fs[i].conv, Source(src, fs[i]).value).value)
  {
    forall i | 0 <= i < |fs|
      ensures fs[i].key in CleanFields(src, fs).value <==> Source(src, fs[i]).Some?
      ensures Source(src, fs[i]).Some? ==>
                CleanFields(src, fs).value[fs[i].key] == Convert(fs[i].conv, Source(src, fs[i]).value).value
    {
      KeyWritten(src, fs, i);
    }
  }

  /** The four core fields of a cleaned word are always written; the chord
      only when truthy; the alternatives only when requested and a
      non-empty list. */
  lemma CleanWordFields(w: map<string, Json>, includeAlternatives: bool)
    requires CleanFields(w, WordFields(includeAlternatives)).Ok?
    ensures var r := CleanFields(w, WordFields(includeAlternatives)).value;
            "text" in r && "start" in r && "end" in r && "confidence" in r
            && ("chord" in r <==> "chord" in w && Truthy(w["chord"]))
            && ("chord" in r ==> r["chord"] == w["chord"])
            && ("alternatives" in r <==>
                  (includeAlternatives && "alternatives" in w && w["alternatives"].JList?
                   && w["alternatives"].items != []))
  {
    var fs := WordFields(includeAlternatives);
    var r := CleanFields(w, fs).value;
    var n := |fs| - 1;
    assert fs[n] == Field("chord", AsIs, IfTruthy);
    assert fs[0].key == "text" && fs[1].key == "start" && fs[2].key == "end" && fs[3].key == "confidence";
    AllKeysWritten(w, fs);
    if includeAlternatives {
      assert fs[4] == Field("alternatives", AsIs, IfNonEmptyList);
    } else {
      assert "alternatives" !in r;
    }
  }

  /** A cleaned chord has its five required fields; its bass is present iff
      the source had one, copied as is (even a None). */
  lemma CleanChordFields(c: map<string, Json>)
    requires CleanFields(c, ChordFields()).Ok?
    ensures var r := CleanFields(c, ChordFields()).value;
            "symbol" in r && "root" in r && "quality" in r && "start" in r && "end" in r
            && ("bass" in r <==> "bass" in c) && ("bass" in c ==> r["bass"] == c["bass"])
            && ("symbol" !in c ==> r["symbol"] == Str0)
  {
    var fs := ChordFields();
    assert fs[0] == Field("symbol", AsStr, Always(Str0)) && fs[1].key == "root" && fs[2].key == "quality";
    assert fs[3].key == "start" && fs[4].key == "end" && fs[5] == Field("bass", AsIs, IfPresent);
    var r := CleanFields(c, fs).value;
    AllKeysWritten(c, fs);
    assert "symbol" in r && "root" in r && "quality" in r && "start" in r && "end" in r;
    assert "bass" in r <==> "bass" in c;
  }

  /** A cleaned note has pitch, start and end; a missing pitch becomes 60,
      and the pitch is truncated to an integer. */
  lemma CleanNoteFields(n: map<string, Json>)
    requires CleanFields(n, NoteFields()).Ok?
    ensures var r := CleanFields(n, NoteFields()).value;
            "pitch_midi" in r && "start" in r && "end" in r
            && ("pitch_midi" !in n ==> r["pitch_midi"] == JNum(60.0))
            && r["pitch_midi"].JNum? && r["pitch_midi"].n == r["pitch_midi"].n.Floor as real
            && ("velocity" in r <==> "velocity" in n)
  {
    var fs := NoteFields();
    assert fs[0] == Field("pitch_midi", AsInt, Always(JNum(60.0))) && fs[1].key == "start" && fs[2].key == "end";
    assert fs[5] == Field("velocity", AsInt, IfPresent);
    AllKeysWritten(n, fs);
    assert Converts(n, fs[0]);
  }

  /** A cleaned segment has type, start and end; a missing type becomes
      'other'. */
  lemma CleanSegmentFields(s: map<string, Json>)
    requires CleanFields(s, SegmentFields()).Ok?
    ensures var r := CleanFields(s, SegmentFields()).value;
            "type" in r && "start" in r && "end" in r
            && ("type" !in s ==> r["type"] == JStr("other"))
            && ("label" in r <==> "label" in s)
  {
    var fs := SegmentFields();
    assert fs[0] == Field("type", AsStr, Always(JStr("other"))) && fs[1].key == "start" && fs[2].key == "end";
    assert fs[3] == Field("label", AsStr, IfPresent);
    AllKeysWritten(s, fs);
  }

  // ---------------------------------------------------------------------------
  // The export document

  /** The exporter's settings. */
  datatype ExportOptions = ExportOptions(includeProcessingInfo: bool, includeAudioAnalysis: bool,
                                         includeAlternatives: bool, prettyPrint: bool, validateSchema: bool)

  /** Every record of a list cleaned, in order, or the first failure. */
  function CleanAll(ms: seq<map<string, Json>>, fs: seq<Field>): (r: Result<seq<Json>>)
    ensures r.Ok? <==> forall i :: 0 <= i < |ms| ==> CleanFields(ms[i], fs).Ok?
    ensures r.Ok? ==> |r.value| == |ms|
                      && forall i :: 0 <= i < |ms| ==> r.value[i] == JObj(CleanFields(ms[i], fs).value)
  {
    if ms == [] then Ok([])
    else
      assert forall i :: 1 <= i < |ms| ==> ms[i] == ms[1..][i - 1];
      match CleanFields(ms[0], fs)
      case Err(e) => Err(e)
      case Ok(m) =>
        match CleanAll(ms[1..], fs)
        case Err(e) => Err(e)
        case Ok(rest) => Ok([JObj(m)] + rest)
  }

  /** One section of the export document: a `.copy()` of a dict or list
      (when its flag is set), or a list cleaned record by record. */
  datatype Section = Copied(key: string, wanted: bool) | Cleaned(key: string, fields: seq<Field>)

  function Sections(opts: ExportOptions): seq<Section> {
    [Copied("metadata", true),
     Cleaned("words", WordFields(opts.includeAlternatives)), Cleaned("chords", ChordFields()),
     Cleaned("notes", NoteFields()), Cleaned("segments", SegmentFields()),
     Copied("audio_analysis", opts.includeAudioAnalysis), Copied("processing_info", opts.includeProcessingInfo)]
  }

  predicate Included(data: map<string, Json>, s: Section) {
    s.key in data && (s.Copied? ==> s.wanted)
  }

  /** An included section's exported value. */
  function SectionValue(data: map<string, Json>, s: Section): (r: Result<Json>)
    requires s.key in data
    ensures s.Copied? ==> (r.Ok? <==> data[s.key].JObj? || data[s.key].JList?)
    ensures s.Copied? && r.Ok? ==> r.value == data[s.key]
    ensures s.Cleaned? && r.Ok? ==>
              Objects(data[s.key]).Some? && r.value.JList?
              && |r.value.items| == |Objects(data[s.key]).value|
  {
    match s
    case Copied(key, _) => if data[key].JObj? || data[key].JList? then Ok(data[key]) else Err("copy")
    case Cleaned(key, fs) =>
      match Objects(data[key])
      case None => Err("iteration")
      case Some(ms) =>
        match CleanAll(ms, fs)
        case Err(e) => Err(e)
        case Ok(cleaned) => Ok(JList(cleaned))
  }

  /** The keys of the sections a document includes. */
  function IncludedKeys(data: map<string, Json>, ss: seq<Section>): set<string> {
    set i | 0 <= i < |ss| && Included(data, ss[i]) :: ss[i].key
  }

  /** The keys included from a non-empty list of sections: those of its
      tail, and the first section's key when it is included. */
  lemma IncludedCons(data: map<string, Json>, ss: seq<Section>)
    requires ss != []
    ensures IncludedKeys(data, ss) == IncludedKeys(data, ss[1..]) + (if Included(data, ss[0]) then {ss[0].key} else {})
  {
    forall k | k in IncludedKeys(data, ss)
      ensures k in IncludedKeys(data, ss[1..]) + (if Included(data, ss[0]) then {ss[0].key} else {})
    {
      var i :| 0 <= i < |ss| && Included(data, ss[i]) && ss[i].key == k;
      if i > 0 {
        assert ss[1..][i - 1].key == k;
      }
    }
    forall k | k in IncludedKeys(data, ss[1..])
      ensures k in IncludedKeys(data, ss)
    {
      var i :| 0 <= i < |ss[1..]| && Included(data, ss[1..][i]) && ss[1..][i].key == k;
      assert ss[i + 1] == ss[1..][i];
    }
  }

  predicate DistinctSections(ss: seq<Section>) {
    forall a, b :: 0 <= a < b < |ss| ==> ss[a].key != ss[b].key
  }

  /** The sections assembled in order, or the first failure. */
  function Assemble(data: map<string, Json>, ss: seq<Section>): (r: Result<map<string, Json>>)
    ensures r.Ok? <==> forall i :: 0 <= i < |ss| && Included(data, ss[i]) ==> SectionValue(data, ss[i]).Ok?
    ensures r.Ok? ==> r.value.Keys == IncludedKeys(data, ss)
    ensures r.Ok? && DistinctSections(ss) ==>
              forall i :: 0 <= i < |ss| && Included(data, ss[i]) ==> r.value[ss[i].key] == SectionValue(data, ss[i]).value
  {
    if ss == [] then Ok(map[])
    else
      var rest := Assemble(data, ss[1..]);
      assert forall i :: 1 <= i < |ss| ==> ss[i] == ss[1..][i - 1];
      IncludedCons(data, ss);
      if rest.Err? then rest
      else if !Included(data, ss[0]) then rest
      else match SectionValue(data, ss[0])
        case Err(e) => Err(e)
        case Ok(v) => Ok(rest.value[ss[0].key := v])
  }

  /** Section i of a list with distinct keys is assembled exactly when it
      is included, with its value. */
  lemma SectionAssembled(data: map<string, Json>, ss: seq<Section>, i: nat)
    requires Assemble(data, ss).Ok? && i < |ss| && DistinctSections(ss)
    ensures ss[i].key in Assemble(data, ss).value <==> Included(data, ss[i])
    ensures Included(data, ss[i]) ==> Assemble(data, ss).value[ss[i].key] == SectionValue(data, ss[i]).value
  {
    var r := Assemble(data, ss).value;
    if ss[i].key in r {
      var j :| 0 <= j < |ss| && Included(data, ss[j]) && ss[j].key == ss[i].key;
      assert j == i;
    }
  }

  /** The sections exported whenever the caller has them. */
  predicate ExportedList(k: string) {
    k == "metadata" || k == "words" || k == "chords" || k == "notes" || k == "segments"
  }

  /** `_prepare_export_data`. */
  function PrepareExportData(data: map<string, Json>, opts: ExportOptions): Result<map<string, Json>> {
    Assemble(data, Sections(opts))
  }

  /** The exported sections: the metadata and the four lists whenever the
      caller has them, the analysis and the processing info only when
      requested, and nothing else. */
  lemma PrepareKeys(data: map<string, Json>, opts: ExportOptions)
    requires PrepareExportData(data, opts).Ok?
    ensures var r := PrepareExportData(data, opts).value;
            (forall k :: k in r ==> k in data)
            && ("audio_analysis" in r <==> opts.includeAudioAnalysis && "audio_analysis" in data)
            && ("processing_info" in r <==> opts.includeProcessingInfo && "processing_info" in data)
            && (forall k :: k in data && ExportedList(k) ==> k in r)
  {
    var ss := Sections(opts);
    SectionsDistinct(opts);
    assert ss[0].key == "metadata" && ss[1].key == "words" && ss[2].key == "chords" && ss[3].key == "notes"
           && ss[4].key == "segments" && ss[5] == Copied("audio_analysis", opts.includeAudioAnalysis)
           && ss[6] == Copied("processing_info", opts.includeProcessingInfo);
    var r := Assemble(data, ss).value;
    forall j | 0 <= j < |ss|
      ensures ss[j].key in r <==> Included(data, ss[j])
    {
      SectionAssembled(data, ss, j);
    }
  }

  /** The seven sections have distinct keys. */
  lemma SectionsDistinct(opts: ExportOptions)
    ensures |Sections(opts)| == 7 && DistinctSections(Sections(opts))
  {
  }

  /** The metadata is exported as the caller's value, and each list as its
      records cleaned one by one, in order, with none dropped. */
  lemma PrepareSections(data: map<string, Json>, opts: ExportOptions, i: nat)
    requires PrepareExportData(data, opts).Ok?
    requires i < |Sections(opts)|
    requires Sections(opts)[i].key in data
    ensures var s := Sections(opts)[i];
            var r := PrepareExportData(data, opts).value;
            s.Cleaned? ==> s.key in r && Objects(data[s.key]).Some?
                           && CleanAll(Objects(data[s.key]).value, s.fields).Ok?
                           && r[s.key] == JList(CleanAll(Objects(data[s.key]).value, s.fields).value)
    ensures "metadata" in data ==> PrepareExportData(data, opts).value["metadata"] == data["metadata"]
  {
    var ss := Sections(opts);
    SectionsDistinct(opts);
    SectionAssembled(data, ss, i);
    SectionAssembled(data, ss, 0);
    assert ss[0] == Copied("metadata", true);
  }

  /** The flags written as `exporter_info`. */
  function ExporterInfo(opts: ExportOptions): Json {
    JObj(map["include_processing_info" := JBool(opts.includeProcessingInfo),
             "include_audio_analysis" := JBool(opts.includeAudioAnalysis),
             "include_alternatives" := JBool(opts.includeAlternatives),
             "pretty_print" := JBool(opts.prettyPrint),
             "validate_schema" := JBool(opts.validateSchema)])
  }

  /** The metadata keys `_add_export_metadata` writes. */
  function StampKeys(outputPath: string): set<string> {
    {"exported_at", "export_format", "export_version", "exporter_info"}
    + (if outputPath != "" then {"export_file"} else {})
  }

  /** `_add_export_metadata` on the prepared document: the export stamp
      `now`, format 'json', version '3.0.0', the exporter's flags, and the
      absolute output path when the path is non-empty. The prepared
      metadata is a copy, so the caller's document is not touched. A
      metadata value that is not an object makes the item assignment
      raise. */
  function AddExportMetadata(prepared: map<string, Json>, outputPath: string, absolutePath: string, now: string,
                             opts: ExportOptions): (r: Result<map<string, Json>>)
    ensures r.Ok? <==> "metadata" !in prepared || prepared["metadata"].JObj?
    ensures r.Ok? ==> r.value.Keys == prepared.Keys + {"metadata"}
    ensures r.Ok? ==> forall k :: k in prepared && k != "metadata" ==> r.value[k] == prepared[k]
    ensures r.Ok? ==> r.value["metadata"].JObj?
    ensures r.Ok? && "metadata" in prepared ==>
              prepared["metadata"].JObj?
              && r.value["metadata"].fields.Keys == prepared["metadata"].fields.Keys + StampKeys(outputPath)
              && forall k :: k in prepared["metadata"].fields && k !in StampKeys(outputPath) ==>
                   r.value["metadata"].fields[k] == prepared["metadata"].fields[k]
    ensures r.Ok? && "metadata" !in prepared ==> r.value["metadata"].fields.Keys == StampKeys(outputPath)
    ensures r.Ok? ==> var m := r.value["metadata"].fields;
                      "exported_at" in m && m["exported_at"] == JStr(now)
                      && "export_format" in m && m["export_format"] == JStr("json")
                      && "export_version" in m && m["export_version"] == JStr("3.0.0")
                      && "exporter_info" in m && m["exporter_info"] == ExporterInfo(opts)
                      && (outputPath != "" ==> "export_file" in m && m["export_file"] == JStr(absolutePath))
                      && (outputPath == "" ==>
                            ("export_file" in m <==>
                               ("metadata" in prepared && prepared["metadata"].JObj?
                                && "export_file" in prepared["metadata"].fields)))
  {
    var meta := if "metadata" in prepared then prepared["metadata"] else JObj(map[]);
    if !meta.JObj? then Err("metadata")
    else
      var m0 := meta.fields["exported_at" := JStr(now)]["export_format" := JStr("json")]
                           ["export_version" := JStr("3.0.0")];
      var m1 := if outputPath != "" then m0["export_file" := JStr(absolutePath)] else m0;
      Ok(prepared["metadata" := JObj(m1["exporter_info" := ExporterInfo(opts)])])
  }

  /** `export`: with validation on, a failing document returns False and
      nothing is written (the repairs made so far stay in the caller's
      document); otherwise the prepared document with its export metadata
      is written, and a step that raises returns False. The absolute path
      and the clock reading are parameters. */
  method Export(opts: ExportOptions, doc: SongDocument, outputPath: string, absolutePath: string, now: string)
    returns (ok: bool, written: Option<Json>)
    modifies doc
    ensures opts.validateSchema ==> doc.data == RepairSpec(old(doc.data))
    ensures !opts.validateSchema ==> doc.data == old(doc.data)
    ensures "metadata" in old(doc.data) ==> "metadata" in doc.data && doc.data["metadata"] == old(doc.data)["metadata"]
    ensures opts.validateSchema && !ValidSpec(old(doc.data)) ==> !ok
    ensures ok <==> written.Some?
    ensures ok <==> (!opts.validateSchema || ValidSpec(old(doc.data)))
                    && PrepareExportData(doc.data, opts).Ok?
                    && AddExportMetadata(PrepareExportData(doc.data, opts).value, outputPath, absolutePath, now, opts).Ok?
    ensures ok ==> PrepareExportData(doc.data, opts).Ok?
                   && AddExportMetadata(PrepareExportData(doc.data, opts).value, outputPath, absolutePath, now, opts).Ok?
                   && written.value == JObj(AddExportMetadata(PrepareExportData(doc.data, opts).value, outputPath,
                                                              absolutePath, now, opts).value)
  {
    if opts.validateSchema {
      var valid := ValidateSongData(doc);
      if !valid {
        return false, None;
      }
    }
    var prepared := PrepareExportData(doc.data, opts);
    if prepared.Err? {
      return false, None;
    }
    var stamped := AddExportMetadata(prepared.value, outputPath, absolutePath, now, opts);
    if stamped.Err? {
      return false, None;
    }
    return true, Some(JObj(stamped.value));
  }
}
