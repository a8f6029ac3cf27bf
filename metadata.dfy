/** Song metadata (`models/metadata.py`): the transcription and audio
    processing records, the metadata container with its custom fields, their
    dictionary forms and `validate`. As in the Song module, a dictionary is a
    record whose fields are `Some` exactly for the keys that are present. */
module SongMetadata {
  import opened Common
  import Song

  // ---------------------------------------------------------------------------
  // TranscriptionInfo

  datatype TranscriptionInfo = TranscriptionInfo(model: string, modelSize: Option<string>, language: Option<string>,
                                                 confidenceThreshold: Option<real>, wordTimestamps: bool,
                                                 alternatives: bool, processingTime: Option<real>)

  datatype TranscriptionDict = TranscriptionDict(model: Option<string>, modelSize: Option<string>,
                                                 language: Option<string>, confidenceThreshold: Option<real>,
                                                 wordTimestamps: Option<bool>, alternatives: Option<bool>,
                                                 processingTime: Option<real>)

  /** `to_dict`: the model and both flags always; size and language when
      truthy; threshold and time when not None. */
  function TranscriptionToDict(t: TranscriptionInfo): (d: TranscriptionDict)
    ensures d.model == Some(t.model) && d.wordTimestamps == Some(t.wordTimestamps)
    ensures d.alternatives == Some(t.alternatives)
    ensures d.modelSize.Some? <==> Song.Truthy(t.modelSize)
    ensures d.language.Some? <==> Song.Truthy(t.language)
    ensures d.modelSize.Some? ==> d.modelSize == t.modelSize
    ensures d.language.Some? ==> d.language == t.language
    ensures d.confidenceThreshold == t.confidenceThreshold && d.processingTime == t.processingTime
  {
    TranscriptionDict(Some(t.model),
                      if t.modelSize.Some? && t.modelSize.value != "" then t.modelSize else None,
                      if t.language.Some? && t.language.value != "" then t.language else None,
                      t.confidenceThreshold, Some(t.wordTimestamps), Some(t.alternatives), t.processingTime)
  }

  /** `from_dict`: model defaults to '', word timestamps to True and
      alternatives to False. */
  function TranscriptionFromDict(d: TranscriptionDict): (t: TranscriptionInfo)
    ensures d.model.None? ==> t.model == ""
    ensures d.wordTimestamps.None? ==> t.wordTimestamps
    ensures d.alternatives.None? ==> !t.alternatives
    ensures t.modelSize == d.modelSize && t.language == d.language
    ensures t.confidenceThreshold == d.confidenceThreshold && t.processingTime == d.processingTime
  {
    TranscriptionInfo(d.model.GetOr(""), d.modelSize, d.language, d.confidenceThreshold,
                      d.wordTimestamps.GetOr(true), d.alternatives.GetOr(false), d.processingTime)
  }

  predicate TranscriptionSurvives(t: TranscriptionInfo) {
    Song.Survives(t.modelSize) && Song.Survives(t.language)
  }

  /** A transcription record round-trips iff its size and language are
      absent or non-empty. */
  lemma TranscriptionRoundTrip(t: TranscriptionInfo)
    ensures TranscriptionFromDict(TranscriptionToDict(t)) == t <==> TranscriptionSurvives(t)
  {
  }

  // ---------------------------------------------------------------------------
  // AudioProcessingInfo

  datatype AudioProcessingInfo = AudioProcessingInfo(denoising: bool, normalization: bool, sourceSeparation: bool,
                                                     separationModel: Option<string>, sampleRate: Option<int>,
                                                     channels: Option<int>, processingTime: Option<real>)

  datatype AudioProcessingDict = AudioProcessingDict(denoising: Option<bool>, normalization: Option<bool>,
                                                     sourceSeparation: Option<bool>, separationModel: Option<string>,
                                                     sampleRate: Option<int>, channels: Option<int>,
                                                     processingTime: Option<real>)

  /** Python truthiness of an optional integer. */
  predicate TruthyInt(o: Option<int>) { o.Some? && o.value != 0 }

  /** `None` for 0, otherwise unchanged: what a round trip does to a sample
      rate or channel count. */
  function ZeroToNone(o: Option<int>): (r: Option<int>)
    ensures r.Some? <==> TruthyInt(o)
    ensures r.Some? ==> r == o
  {
    if o.Some? && o.value == 0 then None else o
  }

  /** The same for an optional string: '' becomes `None`. */
  function EmptyToNone(o: Option<string>): (r: Option<string>)
    ensures r.Some? <==> Song.Truthy(o)
    ensures r.Some? ==> r == o
  {
    if o.Some? && o.value == "" then None else o
  }

  function AudioProcessingToDict(a: AudioProcessingInfo): (d: AudioProcessingDict)
    ensures d.denoising == Some(a.denoising) && d.normalization == Some(a.normalization)
    ensures d.sourceSeparation == Some(a.sourceSeparation)
    ensures d.separationModel.Some? <==> Song.Truthy(a.separationModel)
    ensures d.sampleRate.Some? <==> TruthyInt(a.sampleRate)
    ensures d.channels.Some? <==> TruthyInt(a.channels)
    ensures d.processingTime == a.processingTime
  {
    AudioProcessingDict(Some(a.denoising), Some(a.normalization), Some(a.sourceSeparation),
                        EmptyToNone(a.separationModel), ZeroToNone(a.sampleRate), ZeroToNone(a.channels),
                        a.processingTime)
  }

  /** `from_dict`: the three flags default to False. */
  function AudioProcessingFromDict(d: AudioProcessingDict): (a: AudioProcessingInfo)
    ensures d.denoising.None? ==> !a.denoising
    ensures d.normalization.None? ==> !a.normalization
    ensures d.sourceSeparation.None? ==> !a.sourceSeparation
    ensures a.separationModel == d.separationModel && a.sampleRate == d.sampleRate
    ensures a.channels == d.channels && a.processingTime == d.processingTime
  {
    AudioProcessingInfo(d.denoising.GetOr(false), d.normalization.GetOr(false), d.sourceSeparation.GetOr(false),
                        d.separationModel, d.sampleRate, d.channels, d.processingTime)
  }

  predicate AudioProcessingSurvives(a: AudioProcessingInfo) {
    Song.Survives(a.separationModel) && ZeroToNone(a.sampleRate) == a.sampleRate
    && ZeroToNone(a.channels) == a.channels
  }

  /** A round trip turns a zero sample rate or channel count (and an empty
      separation model) into `None` and keeps everything else. */
  lemma AudioProcessingRoundTrip(a: AudioProcessingInfo)
    ensures AudioProcessingFromDict(AudioProcessingToDict(a))
            == a.(separationModel := EmptyToNone(a.separationModel), sampleRate := ZeroToNone(a.sampleRate),
                  channels := ZeroToNone(a.channels))
    ensures AudioProcessingFromDict(AudioProcessingToDict(a)) == a <==> AudioProcessingSurvives(a)
  {
  }

  // ---------------------------------------------------------------------------
  // Metadata

  const DefaultVersion: string := "3.0.0"

  /** The values of a `Metadata` object. Custom field values are modelled as
      strings. */
  datatype MetadataRecord = MetadataRecord(version: string, createdAt: Option<string>, sourceAudio: Option<string>,
                                           title: Option<string>, artist: Option<string>, album: Option<string>,
                                           year: Option<int>, genre: Option<string>, duration: Option<real>,
                                           transcription: Option<TranscriptionInfo>,
                                           audioProcessing: Option<AudioProcessingInfo>,
                                           customFields: map<string, string>)

  /** The dictionary form. `createdAt` is `None` for a missing key and for a
      JSON null alike, since `dict.get` reads both as None. */
  datatype MetadataDict = MetadataDict(version: Option<string>, createdAt: Option<string>, sourceAudio: Option<string>,
                                       title: Option<string>, artist: Option<string>, album: Option<string>,
                                       year: Option<int>, genre: Option<string>, duration: Option<real>,
                                       transcription: Option<TranscriptionDict>,
                                       audioProcessing: Option<AudioProcessingDict>,
                                       customFields: Option<map<string, string>>)

  /** Python truthiness of a nested dictionary: it has at least one key. */
  predicate TranscriptionDictTruthy(d: TranscriptionDict) {
    d.model.Some? || d.modelSize.Some? || d.language.Some? || d.confidenceThreshold.Some?
    || d.wordTimestamps.Some? || d.alternatives.Some? || d.processingTime.Some?
  }

  predicate AudioProcessingDictTruthy(d: AudioProcessingDict) {
    d.denoising.Some? || d.normalization.Some? || d.sourceSeparation.Some? || d.separationModel.Some?
    || d.sampleRate.Some? || d.channels.Some? || d.processingTime.Some?
  }

  /** `Metadata.to_dict`. Version and creation time are always written; the
      text fields and the year when truthy; the duration when not None; a
      nested record whenever it is set (a dataclass instance is truthy); the
      custom fields when there are any. */
  function MetadataToDict(m: MetadataRecord): (d: MetadataDict)
    ensures d.version == Some(m.version) && d.createdAt == m.createdAt
    ensures d.sourceAudio == EmptyToNone(m.sourceAudio) && d.title == EmptyToNone(m.title)
    ensures d.artist == EmptyToNone(m.artist) && d.album == EmptyToNone(m.album)
    ensures d.genre == EmptyToNone(m.genre) && d.year == ZeroToNone(m.year)
    ensures d.duration == m.duration
    ensures d.transcription.Some? <==> m.transcription.Some?
    ensures d.audioProcessing.Some? <==> m.audioProcessing.Some?
    ensures d.customFields.Some? <==> m.customFields != map[]
    ensures d.customFields.Some? ==> d.customFields.value == m.customFields
  {
    MetadataDict(Some(m.version), m.createdAt, EmptyToNone(m.sourceAudio), EmptyToNone(m.title),
                 EmptyToNone(m.artist), EmptyToNone(m.album), ZeroToNone(m.year), EmptyToNone(m.genre),
                 m.duration,
                 match m.transcription { case None => None case Some(t) => Some(TranscriptionToDict(t)) },
                 match m.audioProcessing { case None => None case Some(a) => Some(AudioProcessingToDict(a)) },
                 if m.customFields == map[] then None else Some(m.customFields))
  }

  /** `__post_init__`: a missing creation time is filled with `now`; an
      empty string is kept. */
  function PostInit(m: MetadataRecord, now: string): (r: MetadataRecord)
    ensures r.createdAt.Some?
    ensures m.createdAt.Some? ==> r == m
    ensures r == m.(createdAt := r.createdAt)
  {
    if m.createdAt.None? then m.(createdAt := Some(now)) else m
  }

  /** `Metadata.from_dict` followed by `__post_init__`. Nested records are
      read only when their dictionary is non-empty; the version defaults to
      "3.0.0" and the custom fields to {}. */
  function MetadataFromDict(d: MetadataDict, now: string): (m: MetadataRecord)
    ensures d.version.None? ==> m.version == DefaultVersion
    ensures d.version.Some? ==> m.version == d.version.value
    ensures m.createdAt == Some(d.createdAt.GetOr(now))
    ensures m.title == d.title && m.artist == d.artist && m.album == d.album && m.genre == d.genre
    ensures m.sourceAudio == d.sourceAudio && m.year == d.year && m.duration == d.duration
    ensures m.transcription.Some? <==> d.transcription.Some? && TranscriptionDictTruthy(d.transcription.value)
    ensures m.audioProcessing.Some? <==> d.audioProcessing.Some? && AudioProcessingDictTruthy(d.audioProcessing.value)
    ensures m.customFields == d.customFields.GetOr(map[])
  {
    var t := match d.transcription
      case Some(td) => if TranscriptionDictTruthy(td) then Some(TranscriptionFromDict(td)) else None
      case None => None;
    var a := match d.audioProcessing
      case Some(ad) => if AudioProcessingDictTruthy(ad) then Some(AudioProcessingFromDict(ad)) else None
      case None => None;
    PostInit(MetadataRecord(d.version.GetOr(DefaultVersion), d.createdAt, d.sourceAudio, d.title, d.artist,
                            d.album, d.year, d.genre, d.duration, t, a, d.customFields.GetOr(map[])), now)
  }

  /** What survives a round trip: a creation time (a constructed object
      always has one), text fields absent or non-empty, a year absent or
      non-zero, and nested records that survive their own round trips. */
  predicate MetadataSurvives(m: MetadataRecord) {
    m.createdAt.Some? && Song.Survives(m.sourceAudio) && Song.Survives(m.title) && Song.Survives(m.artist)
    && Song.Survives(m.album) && Song.Survives(m.genre) && ZeroToNone(m.year) == m.year
    && (m.transcription.Some? ==> TranscriptionSurvives(m.transcription.value))
    && (m.audioProcessing.Some? ==> AudioProcessingSurvives(m.audioProcessing.value))
  }

  /** `Metadata.from_dict(m.to_dict())` gives back `m` exactly when `m`
      satisfies `MetadataSurvives`, whatever the clock reads. */
  lemma MetadataRoundTrip(m: MetadataRecord, now: string)
    ensures MetadataFromDict(MetadataToDict(m), now) == m <==> MetadataSurvives(m)
  {
    var r := MetadataFromDict(MetadataToDict(m), now);
    TopFieldsBack(m, now);
    TranscriptionBack(m, now);
    AudioProcessingBack(m, now);
    assert r == m <==>
      r.version == m.version && r.createdAt == m.createdAt && r.sourceAudio == m.sourceAudio
      && r.title == m.title && r.artist == m.artist && r.album == m.album && r.year == m.year
      && r.genre == m.genre && r.duration == m.duration && r.customFields == m.customFields
      && r.transcription == m.transcription && r.audioProcessing == m.audioProcessing;
  }

  /** The record's own fields come back exactly when they survive. */
  lemma TopFieldsBack(m: MetadataRecord, now: string)
    ensures var r := MetadataFromDict(MetadataToDict(m), now);
            (r.version == m.version && r.createdAt == m.createdAt && r.sourceAudio == m.sourceAudio
             && r.title == m.title && r.artist == m.artist && r.album == m.album && r.year == m.year
             && r.genre == m.genre && r.duration == m.duration && r.customFields == m.customFields)
            <==>
            (m.createdAt.Some? && Song.Survives(m.sourceAudio) && Song.Survives(m.title) && Song.Survives(m.artist)
             && Song.Survives(m.album) && Song.Survives(m.genre) && ZeroToNone(m.year) == m.year)
  {
  }

  lemma TranscriptionBack(m: MetadataRecord, now: string)
    ensures MetadataFromDict(MetadataToDict(m), now).transcription == m.transcription <==>
            (m.transcription.Some? ==> TranscriptionSurvives(m.transcription.value))
  {
    if m.transcription.Some? {
      TranscriptionRoundTrip(m.transcription.value);
    }
  }

  lemma AudioProcessingBack(m: MetadataRecord, now: string)
    ensures MetadataFromDict(MetadataToDict(m), now).audioProcessing == m.audioProcessing <==>
            (m.audioProcessing.Some? ==> AudioProcessingSurvives(m.audioProcessing.value))
  {
    if m.audioProcessing.Some? {
      AudioProcessingRoundTrip(m.audioProcessing.value);
    }
  }


  const MissingVersion: string := "Missing version"
  const MissingCreatedAt: string := "Missing created_at"
  const InvalidVersionFormat: string := "Invalid version format (should start with '3.')"
  const InvalidYear: string := "Invalid year"
  const InvalidDuration: string := "Invalid duration"

  /** `validate`: the error messages, in the order the checks run. */
  function Validate(m: MetadataRecord): (errors: seq<string>)
    ensures MissingVersion in errors <==> m.version == ""
    ensures MissingCreatedAt in errors <==> !Song.Truthy(m.createdAt)
    ensures InvalidVersionFormat in errors <==> !StartsWith(m.version, "3.")
    ensures InvalidYear in errors <==> m.year.Some? && (m.year.value < 1900 || m.year.value > 2100)
    ensures InvalidDuration in errors <==> m.duration.Some? && m.duration.value <= 0.0
    ensures |errors| <= 5
  {
    (if m.version == "" then [MissingVersion] else [])
    + (if !Song.Truthy(m.createdAt) then [MissingCreatedAt] else [])
    + (if !StartsWith(m.version, "3.") then [InvalidVersionFormat] else [])
    + (if m.year.Some? && (m.year.value < 1900 || m.year.value > 2100) then [InvalidYear] else [])
    + (if m.duration.Some? && m.duration.value <= 0.0 then [InvalidDuration] else [])
  }

  /** An empty version fails both version checks, so it is reported twice. */
  lemma EmptyVersionTwoErrors(m: MetadataRecord)
    requires m.version == ""
    ensures MissingVersion in Validate(m) && InvalidVersionFormat in Validate(m)
  {
  }

  /** A freshly read record with the default version and a creation time
      passes validation unless its year or duration is out of range. */
  lemma DefaultVersionValid(m: MetadataRecord)
    requires m.version == DefaultVersion && Song.Truthy(m.createdAt)
    requires m.year.None? && m.duration.None?
    ensures Validate(m) == []
  {
    assert DefaultVersion[..2] == "3.";
  }

  /** `get_basic_info`: the set fields among title, artist, album, year,
      genre and duration. */
  datatype BasicInfo = BasicInfo(title: Option<string>, artist: Option<string>, album: Option<string>,
                                 year: Option<int>, genre: Option<string>, duration: Option<real>)

  function GetBasicInfo(m: MetadataRecord): (r: BasicInfo)
    ensures r.title.Some? <==> Song.Truthy(m.title)
    ensures r.artist.Some? <==> Song.Truthy(m.artist)
    ensures r.album.Some? <==> Song.Truthy(m.album)
    ensures r.year.Some? <==> TruthyInt(m.year)
    ensures r.genre.Some? <==> Song.Truthy(m.genre)
    ensures r.duration == m.duration
  {
    BasicInfo(EmptyToNone(m.title), EmptyToNone(m.artist), EmptyToNone(m.album), ZeroToNone(m.year),
              EmptyToNone(m.genre), m.duration)
  }

  /** The basic information is exactly the matching part of `to_dict`. */
  lemma BasicInfoIsDictPart(m: MetadataRecord)
    ensures var d := MetadataToDict(m);
            GetBasicInfo(m) == BasicInfo(d.title, d.artist, d.album, d.year, d.genre, d.duration)
  {
  }

  /** The metadata object. The setters and the custom-field operations
      update it in place. */
  class Metadata {
    var version: string
    var createdAt: Option<string>
    var sourceAudio: Option<string>
    var title: Option<string>
    var artist: Option<string>
    var album: Option<string>
    var year: Option<int>
    var genre: Option<string>
    var duration: Option<real>
    var transcription: Option<TranscriptionInfo>
    var audioProcessing: Option<AudioProcessingInfo>
    var customFields: map<string, string>

    /** The object's values. */
    function Record(): MetadataRecord
      reads this
    {
      MetadataRecord(version, createdAt, sourceAudio, title, artist, album, year, genre, duration,
                     transcription, audioProcessing, customFields)
    }

    /** Construction with the given values, then `__post_init__` with the
        current time `now`. */
    constructor (m: MetadataRecord, now: string)
      ensures Record() == PostInit(m, now)
      ensures createdAt.Some?
    {
      version := m.version;
      createdAt := if m.createdAt.None? then Some(now) else m.createdAt;
      sourceAudio := m.sourceAudio;
      title := m.title;
      artist := m.artist;
      album := m.album;
      year := m.year;
      genre := m.genre;
      duration := m.duration;
      transcription := m.transcription;
      audioProcessing := m.audioProcessing;
      customFields := m.customFields;
    }

    method SetTitle(t: string)
      modifies this
      ensures Record() == old(Record()).(title := Some(t))
    {
      title := Some(t);
    }

    method SetArtist(a: string)
      modifies this
      ensures Record() == old(Record()).(artist := Some(a))
    {
      artist := Some(a);
    }

    method SetAlbum(a: string)
      modifies this
      ensures Record() == old(Record()).(album := Some(a))
    {
      album := Some(a);
    }

    method SetYear(y: int)
      modifies this
      ensures Record() == old(Record()).(year := Some(y))
    {
      year := Some(y);
    }

    method SetGenre(g: string)
      modifies this
      ensures Record() == old(Record()).(genre := Some(g))
    {
      genre := Some(g);
    }

    method SetDuration(d: real)
      modifies this
      ensures Record() == old(Record()).(duration := Some(d))
    {
      duration := Some(d);
    }

    method SetTranscriptionInfo(t: TranscriptionInfo)
      modifies this
      ensures Record() == old(Record()).(transcription := Some(t))
    {
      transcription := Some(t);
    }

    method SetAudioProcessingInfo(a: AudioProcessingInfo)
      modifies this
      ensures Record() == old(Record()).(audioProcessing := Some(a))
    {
      audioProcessing := Some(a);
    }

    /** `get_custom_field(key, default)`. */
    function GetCustomField(key: string, default: Option<string>): (r: Option<string>)
      reads this
      ensures key in customFields ==> r == Some(customFields[key])
      ensures key !in customFields ==> r == default
    {
      if key in customFields then Some(customFields[key]) else default
    }

    /** After adding, the key reads back as the value; other keys and all
        other fields are unchanged. */
    method AddCustomField(key: string, value: string)
      modifies this
      ensures customFields == old(customFields)[key := value]
      ensures Record() == old(Record()).(customFields := customFields)
      ensures GetCustomField(key, None) == Some(value)
      ensures forall k :: k != key ==> GetCustomField(k, None) == old(GetCustomField(k, None))
    {
      customFields := customFields[key := value];
    }

    /** Returns whether the key was present; afterwards it is absent and
        other keys are untouched. */
    method RemoveCustomField(key: string) returns (removed: bool)
      modifies this
      ensures removed <==> key in old(customFields)
      ensures customFields == old(customFields) - {key}
      ensures Record() == old(Record()).(customFields := customFields)
      ensures GetCustomField(key, None) == None
    {
      if key in customFields {
        customFields := customFields - {key};
        removed := true;
      } else {
        removed := false;
      }
    }
  }
}
