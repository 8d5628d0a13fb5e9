/**
 * The `SSPMParser` object: its fields, and the methods that overwrite
 * them, step by step as the reader and writer do. Every method names the
 * fields it may change and is proved against the functions of
 * `WriteModel` and `ReadModel`.
 */
module Parser {
  import opened Wrappers
  import opened Bytes
  import opened Stream
  import opened NoteModel
  import opened SspmState
  import opened WriteModel
  import opened ReadModel

  class SSPMParser {
    var exportOffset: int
    var header: HeaderField
    var hash: seq<byte>
    var lastMs: PyValue
    var noteCount: seq<byte>
    var markerCount: seq<byte>
    var difficulty: PyValue
    var mapRating: seq<byte>
    var containsAudio: seq<byte>
    var containsCover: seq<byte>
    var requiresMod: PyValue
    /** The ten pointer-table attributes, `custom_data_offset` to `marker_length`. */
    var pointers: Pointers
    var mapId: PyValue
    var mapName: PyValue
    var songName: PyValue
    var mappers: Option<seq<string>>
    var audioBytes: Option<seq<byte>>
    var coverBytes: Option<seq<byte>>
    var notes: Option<seq<Note>>
    var hasNotes: Option<bool>
    var isQuantum: Option<bool>

    /** The attributes a version 2 read sets, besides the header, the audio and the cover. */
    function Loaded(): ReadFields
      reads this`hash, this`lastMs, this`noteCount, this`markerCount, this`difficulty, this`mapRating,
            this`containsAudio, this`containsCover, this`requiresMod, this`pointers, this`mapId,
            this`mapName, this`songName, this`mappers, this`hasNotes, this`notes, this`isQuantum
    {
      ReadFields(hash, lastMs, noteCount, markerCount, difficulty, mapRating, containsAudio, containsCover,
                 requiresMod, pointers, mapId, mapName, songName, mappers, hasNotes, notes, isQuantum)
    }

    /** The attributes `WriteSSPM` reads. */
    function Input(): WriteInput
      reads this
    {
      WriteInput(notes, audioBytes, coverBytes, difficulty, mapName, songName, mappers, mapId, requiresMod, exportOffset)
    }

    /**
     * A new parser: export offset 0, the version 2 header, `Difficulty` and
     * `requires_mod` 0, `custom_data_offset` 0, and everything else unset.
     * Attributes the constructor does not create are empty here.
     */
    constructor ()
      ensures exportOffset == 0 && header == HeaderBytes(WrittenHeader)
      ensures lastMs == PyNone && difficulty == PyInt(0) && requiresMod == PyInt(0)
      ensures pointers.customDataOffset == PyInt(0)
      ensures mapId == PyNone && mapName == PyNone && songName == PyNone && mappers == None
      ensures audioBytes == None && coverBytes == None && notes == None
      ensures hash == [] && noteCount == [] && markerCount == [] && mapRating == []
      ensures containsAudio == [] && containsCover == []
      ensures hasNotes == None && isQuantum == None
    {
      exportOffset := 0;
      header := HeaderBytes(WrittenHeader);
      hash := [];
      lastMs := PyNone;
      noteCount := [];
      markerCount := [];
      difficulty := PyInt(0);
      mapRating := [];
      containsAudio := [];
      containsCover := [];
      requiresMod := PyInt(0);
      pointers := Pointers(PyInt(0), [], [], [], [], [], [], [], [], []);
      mapId := PyNone;
      mapName := PyNone;
      songName := PyNone;
      mappers := None;
      audioBytes := None;
      coverBytes := None;
      notes := None;
      hasNotes := None;
      isQuantum := None;
    }

    // -------------------------------------------------------------------
    // WriteSSPM

    /** `setattr(self, key, value)` for one keyword, or only a warning. */
    method SetAttribute(o: Override)
      modifies this`notes, this`audioBytes, this`coverBytes, this`difficulty, this`mapName,
               this`songName, this`mappers, this`mapId, this`requiresMod, this`exportOffset
      ensures Input() == ApplyOverride(old(Input()), o)
    {
      match o
      case SetNotes(v) => notes := v;
      case SetAudioBytes(v) => audioBytes := v;
      case SetCoverBytes(v) => coverBytes := v;
      case SetDifficulty(v) => difficulty := v;
      case SetMapName(v) => mapName := v;
      case SetSongName(v) => songName := v;
      case SetMappers(v) => mappers := v;
      case SetMapId(v) => mapId := v;
      case SetRequiresMod(v) => requiresMod := v;
      case SetExportOffset(v) => exportOffset := v;
      case Unknown(_) =>
    }

    /** The keyword loop at the start of `WriteSSPM`. */
    method ApplyOverrides(kw: seq<Override>)
      modifies this`notes, this`audioBytes, this`coverBytes, this`difficulty, this`mapName,
               this`songName, this`mappers, this`mapId, this`requiresMod, this`exportOffset
      ensures WriteInput(notes, audioBytes, coverBytes, difficulty, mapName, songName, mappers, mapId, requiresMod, exportOffset)
           == Overridden(old(WriteInput(notes, audioBytes, coverBytes, difficulty, mapName, songName, mappers, mapId, requiresMod, exportOffset)), kw)
    {
      var i := 0;
      while i < |kw|
        invariant 0 <= i <= |kw|
        invariant Input() == Overridden(old(Input()), kw[..i])
      {
        assert Init(kw[..i + 1]) == kw[..i];
        SetAttribute(kw[i]);
        i := i + 1;
      }
      assert kw[..i] == kw;
    }

    /** Provisional `last_ms`, the note count and `Difficulty` as bytes. */
    static method Configure(notes: Option<seq<Note>>, difficulty: PyValue) returns (r: Result<Config, WriteError>)
      ensures r == ConfigStage(notes, difficulty)
    {
      if notes.None? {
        return Failure(NotesMissing);
      }
      var ns := notes.value;
      if ns == [] {
        return Failure(NotesEmpty);
      }
      var last := Unsigned(Last(ns).ms, 4);
      if last.None? {
        return Failure(OutOfRange);
      }
      var count := Unsigned(|ns|, 4);
      if count.None? {
        return Failure(OutOfRange);
      }
      var d := DifficultyLookup(difficulty);
      if d.PyInt? {
        if !(0 <= d.i < 256) {
          return Failure(OutOfRange);
        }
        d := PyBytes([d.i]);
      }
      return Success(Config(last.value, count.value, d));
    }

    /** The mapper list of the strings section. */
    static method EncodeMappers(ms: seq<string>) returns (r: Result<seq<byte>, WriteError>)
      ensures r == MappersSection(ms)
    {
      var acc: seq<byte> := [];
      var i := 0;
      while i < |ms|
        invariant 0 <= i <= |ms|
        invariant MappersSection(ms[..i]) == Success(acc)
      {
        MappersSectionStep(ms, i, acc);
        var e := AsciiEncode(ms[i]);
        if e.None? {
          MappersSectionStops(ms, i + 1);
          return Failure(NonAscii);
        }
        if |e.value| >= 65536 {
          MappersSectionStops(ms, i + 1);
          return Failure(OutOfRange);
        }
        acc := acc + LengthPrefixed(e.value);
        i := i + 1;
      }
      assert ms[..i] == ms;
      return Success(acc);
    }

    /** Song name, map ID and map name as bytes. */
    static method EncodeTexts(songName: PyValue, mapName: PyValue, mappers: Option<seq<string>>, mapId: PyValue,
                              forceMapId: bool) returns (r: Result<WriteModel.Texts, WriteError>)
      ensures r == WriteModel.TextsStage(songName, mapName, mappers, mapId, forceMapId)
    {
      var song := SongNameBytes(songName);
      if song.Failure? {
        return Failure(song.error);
      }
      var idText := MapIdText(mappers, mapName, mapId, forceMapId);
      if idText.Failure? {
        return Failure(idText.error);
      }
      var id := Encoded(idText.value);
      if id.Failure? {
        return Failure(id.error);
      }
      if |id.value| >= 65536 {
        return Failure(OutOfRange);
      }
      if !mapName.PyStr? {
        return Failure(NotText);
      }
      var name := Encoded(mapName.s);
      if name.Failure? {
        return Failure(name.error);
      }
      if |name.value| >= 65536 || |song.value| >= 65536 {
        return Failure(OutOfRange);
      }
      return Success(WriteModel.Texts(song.value, id.value, name.value));
    }

    /** The strings section: the three texts with their lengths, the mapper count and the mappers. */
    static method EncodeStrings(songName: PyValue, mapName: PyValue, mappers: Option<seq<string>>, mapId: PyValue,
                                forceMapId: bool) returns (r: Result<(WriteModel.Texts, seq<byte>), WriteError>)
      ensures r == StringsStage(songName, mapName, mappers, mapId, forceMapId)
    {
      var t := EncodeTexts(songName, mapName, mappers, mapId, forceMapId);
      if t.Failure? {
        return Failure(t.error);
      }
      if mappers.None? {
        return Failure(NotText);
      }
      if |mappers.value| >= 65536 {
        return Failure(OutOfRange);
      }
      var section := EncodeMappers(mappers.value);
      if section.Failure? {
        return Failure(section.error);
      }
      var texts := t.value;
      var strings := LengthPrefixed(texts.mapId) + LengthPrefixed(texts.mapName) + LengthPrefixed(texts.songName)
                     + Le(|mappers.value|, 2) + section.value;
      return Success((texts, strings));
    }

    /** All marker records and the running maximum of the note times. */
    static method EncodeNotes(ns: seq<Note>, exportOffset: int, fromInt: int -> F32)
      returns (markers: Result<seq<byte>, WriteError>, last: int)
      ensures markers == EncodeMarkers(ns, exportOffset, fromInt)
      ensures markers.Success? ==> last == MaxMs(ns)
    {
      var acc: seq<byte> := [];
      last := 0;
      var i := 0;
      while i < |ns|
        invariant 0 <= i <= |ns|
        invariant EncodeMarkers(ns[..i], exportOffset, fromInt) == Success(acc)
        invariant last == MaxMs(ns[..i])
      {
        EncodeMarkersStep(ns, exportOffset, fromInt, i, acc);
        MaxMsStep(ns, i);
        var record := EncodeMarker(ns[i], exportOffset, fromInt);
        if record.Failure? {
          EncodeMarkersStops(ns, exportOffset, fromInt, i + 1);
          return record, last;
        }
        if last < ns[i].ms {
          last := ns[i].ms;
        }
        acc := acc + record.value;
        i := i + 1;
      }
      assert ns[..i] == ns;
      return Success(acc), last;
    }

    /**
     * The second half of the write: `last_ms` from the running maximum, the
     * metadata, the pointer table, the hash of the marker section and the
     * file.
     */
    static method Finish(count: seq<byte>, difficulty: PyValue, audio: Option<seq<byte>>, cover: Option<seq<byte>>,
                         modFlag: seq<byte>, strings: seq<byte>, markers: seq<byte>, maxMs: int,
                         sha1: seq<byte> -> Digest) returns (r: Result<Written, WriteError>)
      ensures r == WriteModel.Assemble(count, difficulty, audio, cover, modFlag, strings, markers, maxMs, sha1)
    {
      var last := Unsigned(maxMs, 4);
      if last.None? {
        return Failure(OutOfRange);
      }
      if !difficulty.PyBytes? {
        return Failure(DifficultyNotBytes);
      }
      var metadata := MetadataBytes(last.value, count, difficulty.b, audio, cover, modFlag);
      var p := PointerTable(|metadata|, |strings|, audio, cover, |markers|);
      if p.None? {
        return Failure(OutOfRange);
      }
      var audioBytes := if audio.None? then [] else audio.value;
      var coverBytes := if cover.None? then [] else cover.value;
      var hash := sha1(MarkerDefinitions + markers);
      var file := Concat([WrittenHeader, hash, metadata, PointerBytes(p.value), strings, [0x00, 0x00],
                          audioBytes, coverBytes, MarkerDefinitions, markers]);
      return Success(Written(file, last.value, difficulty.b, p.value, audioBytes, coverBytes));
    }

    /** Every stage of the write on the attributes after the keywords. */
    static method WriteStages(i: WriteInput, forceMapId: bool, sha1: seq<byte> -> Digest, fromInt: int -> F32)
      returns (r: Result<Stored, WriteError>)
      ensures r == WriteFile(i, forceMapId, sha1, fromInt)
    {
      var c := Configure(i.notes, i.difficulty);
      if c.Failure? {
        return Failure(c.error);
      }
      var t := EncodeStrings(i.songName, i.mapName, i.mappers, i.mapId, forceMapId);
      if t.Failure? {
        return Failure(t.error);
      }
      var markers, maxMs := EncodeNotes(i.notes.value, i.exportOffset, fromInt);
      if markers.Failure? {
        return Failure(markers.error);
      }
      var w := Finish(c.value.count, c.value.difficulty, i.audioBytes, i.coverBytes, RequiresModFlag(i.requiresMod),
                      t.value.1, markers.value, maxMs, sha1);
      if w.Failure? {
        return Failure(w.error);
      }
      return Success(Stored(c.value, t.value.0, w.value));
    }

    /**
     * `WriteSSPM(debug=False, forcemapid, **kwargs)` returning the file
     * instead of writing it: the keywords, then every stage of the write,
     * and the attributes each stage converts.
     */
    method WriteSSPM(kw: seq<Override>, forceMapId: bool, sha1: seq<byte> -> Digest, fromInt: int -> F32)
      returns (r: Result<seq<byte>, WriteError>, ghost i: WriteInput, ghost s: Result<Stored, WriteError>)
      modifies this`notes, this`audioBytes, this`coverBytes, this`difficulty, this`mapName,
               this`songName, this`mappers, this`mapId, this`requiresMod, this`exportOffset,
               this`header, this`containsCover, this`containsAudio, this`lastMs, this`noteCount,
               this`markerCount, this`pointers
      ensures i == Overridden(old(WriteInput(notes, audioBytes, coverBytes, difficulty, mapName, songName, mappers, mapId, requiresMod, exportOffset)), kw)
      ensures s == WriteFile(i, forceMapId, sha1, fromInt)
      ensures notes == i.notes && mappers == i.mappers && exportOffset == i.exportOffset
      ensures r.Success? <==> s.Success?
      ensures r.Failure? ==> s == Failure(r.error)
      ensures s.Success? ==> r.value == s.value.written.file
      ensures header == HeaderBytes(WrittenHeader)
      ensures containsAudio == Flag(i.audioBytes.Some?) && containsCover == Flag(i.coverBytes.Some?)
      ensures requiresMod == PyBytes(RequiresModFlag(i.requiresMod))
      ensures s.Success? ==> StoredFields(s.value)
    {
      ApplyOverrides(kw);
      i := Input();
      r, s := WriteConfigured(forceMapId, sha1, fromInt);
    }

    /** The body of `WriteSSPM` after the keywords are applied. */
    method WriteConfigured(forceMapId: bool, sha1: seq<byte> -> Digest, fromInt: int -> F32)
      returns (r: Result<seq<byte>, WriteError>, ghost s: Result<Stored, WriteError>)
      modifies this`audioBytes, this`coverBytes, this`difficulty, this`songName, this`mapId, this`mapName,
               this`requiresMod, this`header, this`containsCover, this`containsAudio, this`lastMs,
               this`noteCount, this`markerCount, this`pointers
      ensures s == WriteFile(old(Input()), forceMapId, sha1, fromInt)
      ensures r.Success? <==> s.Success?
      ensures r.Failure? ==> s == Failure(r.error)
      ensures s.Success? ==> r.value == s.value.written.file
      ensures header == HeaderBytes(WrittenHeader)
      ensures containsAudio == Flag(old(audioBytes).Some?) && containsCover == Flag(old(coverBytes).Some?)
      ensures requiresMod == PyBytes(RequiresModFlag(old(requiresMod)))
      ensures s.Success? ==> StoredFields(s.value)
    {
      var stages := WriteStages(Input(), forceMapId, sha1, fromInt);
      s := stages;
      SetFlags();
      if stages.Failure? {
        return Failure(stages.error), s;
      }
      Store(stages.value);
      return Success(stages.value.written.file), s;
    }

    /** The fixed header, the two presence flags and `requires_mod`. */
    method SetFlags()
      modifies this`header, this`containsCover, this`containsAudio, this`requiresMod
      ensures header == HeaderBytes(WrittenHeader)
      ensures containsCover == Flag(coverBytes.Some?) && containsAudio == Flag(audioBytes.Some?)
      ensures requiresMod == PyBytes(RequiresModFlag(old(requiresMod)))
    {
      header := HeaderBytes(WrittenHeader);
      containsCover := Flag(coverBytes.Some?);
      containsAudio := Flag(audioBytes.Some?);
      requiresMod := PyBytes(RequiresModFlag(requiresMod));
    }

    /**
     * The attributes a successful write leaves behind: the counts, the last
     * timestamp, the difficulty byte, the pointers, both payloads as bytes
     * and the three texts as ASCII bytes.
     */
    predicate StoredFields(w: Stored)
      reads this
    {
      && lastMs == PyBytes(w.written.lastMs) && noteCount == w.config.count && markerCount == w.config.count
      && difficulty == PyBytes(w.written.difficulty)
      && songName == PyBytes(w.texts.songName) && mapId == PyBytes(w.texts.mapId)
      && mapName == PyBytes(w.texts.mapName)
      && pointers == w.written.pointers && audioBytes == Some(w.written.audio) && coverBytes == Some(w.written.cover)
    }

    /** Stores what the stages of a successful write converted. */
    method Store(w: Stored)
      modifies this`lastMs, this`noteCount, this`markerCount, this`difficulty, this`songName, this`mapId,
               this`mapName, this`pointers, this`audioBytes, this`coverBytes
      ensures StoredFields(w)
    {
      noteCount := w.config.count;
      markerCount := w.config.count;
      songName := PyBytes(w.texts.songName);
      mapId := PyBytes(w.texts.mapId);
      mapName := PyBytes(w.texts.mapName);
      lastMs := PyBytes(w.written.lastMs);
      difficulty := PyBytes(w.written.difficulty);
      pointers := w.written.pointers;
      audioBytes := Some(w.written.audio);
      coverBytes := Some(w.written.cover);
    }
  
    // -------------------------------------------------------------------
    // ReadSSPM

    /**
     * `_GetNextVariableString(data, fourbytes, V2=v2)`: the length prefix,
     * its numpy conversion, then that many bytes as ASCII.
     */
    static method GetNextVariableString(c: Cursor, fourbytes: bool, v2: bool) returns (r: Result<string, ReadError>)
      modifies c`pos
      ensures (r, c.pos) == VarString(c.data, old(c.pos), fourbytes, v2)
    {
      var lengthBytes := c.Read(if v2 then 2 else 1);
      var length := FromLe(lengthBytes);
      if !fourbytes && length >= 32768 {
        return Failure(StringTooLong);
      }
      var text := c.Read(length);
      var decoded := AsciiDecode(text);
      if decoded.None? {
        return Failure(NonAsciiText);
      }
      return Success(decoded.value);
    }

    /** `_NewLineTerminatedString`: one byte at a time up to the newline, which is consumed. */
    static method NewLineTerminatedString(c: Cursor) returns (r: Result<string, ReadError>)
      modifies c`pos
      ensures (r, c.pos) == NewlineString(c.data, old(c.pos))
    {
      var start := c.pos;
      if start >= |c.data| {
        return Failure(NoNewline);
      }
      var text: seq<byte> := [];
      while c.pos < |c.data|
        invariant start <= c.pos <= |c.data|
        invariant text == c.data[start..c.pos]
        invariant NewlineIndex(c.data, start) == NewlineIndex(c.data, c.pos)
        decreases |c.data| - c.pos
      {
        ghost var at := c.pos;
        var b := c.Read(1);
        assert b == [c.data[at]];
        if b == [0x0a] {
          assert NewlineIndex(c.data, at) == Some(at);
          var decoded := AsciiDecode(text);
          if decoded.None? {
            return Failure(NonAsciiText);
          }
          return Success(decoded.value);
        }
        assert c.data[start..c.pos] == c.data[start..at] + [c.data[at]];
        text := text + b;
      }
      return Failure(NoNewline);
    }

    /** The loop that replaces each character of `INVALID_CHARS` in the map ID by '_'. */
    static method SanitizeMapId(id: string) returns (r: string)
      ensures r == Sanitize(id)
    {
      r := id;
      var i := 0;
      while i < |r|
        invariant |r| == |id| && 0 <= i <= |r|
        invariant forall j :: 0 <= j < i ==> r[j] == (if id[j] in InvalidChars then '_' else id[j])
        invariant forall j :: i <= j < |r| ==> r[j] == id[j]
      {
        if r[i] in InvalidChars {
          r := r[..i] + "_" + r[i + 1..];
        }
        i := i + 1;
      }
    }

    /** The header dictionary: signature, version, reserve. */
    method ReadHeader(c: Cursor)
      modifies this`header, c`pos
      ensures (header, c.pos) == HeaderStage(c.data, old(c.pos))
    {
      var signature := c.Read(4);
      var versionBytes := c.Read(2);
      var version := if versionBytes == [0x02, 0x00] then 2 else 1;
      var reserve := c.Read(if version == 2 then 4 else 2);
      header := HeaderDict(signature, version, reserve);
    }

    /** The metadata fields, read in file order. */
    static method ReadMetadata(c: Cursor) returns (m: Meta)
      modifies c`pos
      ensures (m, c.pos) == MetaStage(c.data, old(c.pos))
    {
      var hash := c.Read(20);
      var lastMs := c.Read(4);
      var noteCount := c.Read(4);
      var markerCount := c.Read(4);
      var difficulty := c.Read(1);
      var rating := c.Read(2);
      var audioFlag := c.Read(1);
      var coverFlag := c.Read(1);
      var modFlag := c.Read(1);
      m := Meta(hash, lastMs, noteCount, markerCount, difficulty, rating, audioFlag, coverFlag, modFlag);
    }

    /** The ten pointer fields, read in file order. */
    static method ReadPointers(c: Cursor) returns (p: Pointers)
      modifies c`pos
      ensures (p, c.pos) == PointerStage(c.data, old(c.pos))
    {
      var customOffset := c.Read(8);
      var customLength := c.Read(8);
      var audioOffset := c.Read(8);
      var audioLength := c.Read(8);
      var coverOffset := c.Read(8);
      var coverLength := c.Read(8);
      var defsOffset := c.Read(8);
      var defsLength := c.Read(8);
      var markerOffset := c.Read(8);
      var markerLength := c.Read(8);
      p := Pointers(PyBytes(customOffset), customLength, audioOffset, audioLength, coverOffset, coverLength,
                    defsOffset, defsLength, markerOffset, markerLength);
    }

    /** The mapper loop: `count` strings appended in file order. */
    static method ReadMapperList(c: Cursor, count: nat) returns (r: Result<seq<string>, ReadError>)
      modifies c`pos
      ensures (r, c.pos) == ReadMappers(c.data, old(c.pos), count)
    {
      ghost var start := c.pos;
      ghost var step := MapperStep(c.data);
      var mappers: seq<string> := [];
      var i := 0;
      while i < count
        invariant 0 <= i <= count
        invariant Repeat(step, start, i) == (Success(mappers), c.pos)
      {
        ghost var at := c.pos;
        var m := GetNextVariableString(c, false, true);
        assert step(at) == (m, c.pos);
        RepeatStep(step, start, i, mappers, at, (m, c.pos));
        if m.Failure? {
          RepeatStops(step, start, i + 1, count);
          return Failure(m.error);
        }
        mappers := mappers + [m.value];
        i := i + 1;
      }
      return Success(mappers);
    }

    /** Map ID (commas removed, then sanitised), map name, song name, then the mapper list. */
    static method ReadTexts(c: Cursor) returns (r: Result<ReadModel.Texts, ReadError>)
      modifies c`pos
      ensures (r, c.pos) == ReadModel.TextsStage(c.data, old(c.pos))
    {
      var id := GetNextVariableString(c, false, true);
      if id.Failure? {
        return Failure(id.error);
      }
      var name := GetNextVariableString(c, false, true);
      if name.Failure? {
        return Failure(name.error);
      }
      var song := GetNextVariableString(c, false, true);
      if song.Failure? {
        return Failure(song.error);
      }
      var mapId := SanitizeMapId(RemoveCommas(id.value));
      var count := c.Read(2);
      var mappers := ReadMapperList(c, FromLe(count));
      if mappers.Failure? {
        return Failure(mappers.error);
      }
      return Success(ReadModel.Texts(mapId, name.value, song.value, mappers.value));
    }

    /**
     * The custom data block: two bytes are read and nothing of them is
     * kept; then the cursor moves to the audio pointer.
     */
    static method SkipCustomData(c: Cursor, audioOffset: seq<byte>) returns (e: Option<ReadError>)
      modifies c`pos
      ensures (e, c.pos) == CustomStage(c.data, old(c.pos), audioOffset)
    {
      var _ := c.Read(2);
      var offset := FromLe(audioOffset);
      if offset >= Pow256(8) / 2 {
        return Some(PointerOverflow);
      }
      c.Seek(offset);
      return None;
    }

    /** The audio or cover section, read when its flag byte is 1. */
    static method ReadSection(c: Cursor, flag: seq<byte>, length: seq<byte>) returns (r: Result<Option<seq<byte>>, ReadError>)
      modifies c`pos
      ensures (r, c.pos) == Section(c.data, old(c.pos), flag, length)
    {
      if flag == [] {
        return Failure(MissingByte);
      }
      if flag[0] != 1 {
        return Success(None);
      }
      var n := FromLe(length);
      if n >= Pow256(8) / 2 {
        return Failure(PointerOverflow);
      }
      var b := c.Read(n);
      return Success(Some(b));
    }

    /** The inner loop of a definition: bytes up to a zero, or an empty read at the end. */
    static method SkipDefinitionData(c: Cursor)
      modifies c`pos
      ensures c.pos == SkipToZero(c.data, old(c.pos))
    {
      var d := 1;
      while d != 0
        invariant old(c.pos) <= c.pos
        invariant d != 0 ==> SkipToZero(c.data, old(c.pos)) == SkipToZero(c.data, c.pos)
        invariant d == 0 ==> c.pos == SkipToZero(c.data, old(c.pos))
        decreases (if c.pos <= |c.data| then |c.data| - c.pos else 0) + (if d != 0 then 1 else 0)
      {
        var b := c.Read(1);
        d := FromLe(b);
      }
    }

    /** One marker definition; the result is its name. */
    static method ReadDefinitionEntry(c: Cursor) returns (r: Result<string, ReadError>)
      modifies c`pos
      ensures (r, c.pos) == ReadDefinition(c.data, old(c.pos))
    {
      var name := GetNextVariableString(c, false, true);
      if name.Failure? {
        return Failure(name.error);
      }
      var _ := c.Read(1);
      SkipDefinitionData(c);
      return Success(name.value);
    }

    /** The definitions section: the count byte, then the loop. */
    static method ReadDefinitionList(c: Cursor) returns (r: Result<bool, ReadError>)
      modifies c`pos
      ensures (r, c.pos) == DefinitionsStage(c.data, old(c.pos))
    {
      var n := c.Read(1);
      if n == [] {
        return Failure(MissingByte);
      }
      r := ReadDefinitionLoop(c, n[0]);
    }

    /** The definitions loop; the result is `has_notes`. */
    static method ReadDefinitionLoop(c: Cursor, count: nat) returns (r: Result<bool, ReadError>)
      modifies c`pos
      ensures (r, c.pos) == DefinitionLoop(c.data, old(c.pos), count)
    {
      ghost var start := c.pos;
      ghost var step := DefinitionStep(c.data);
      ghost var kinds: seq<bool> := [];
      var hasNotes := false;
      var i: nat := 0;
      while i < count
        invariant 0 <= i <= count
        invariant Repeat(step, start, i) == (Success(kinds), c.pos)
        invariant |kinds| == i
        invariant hasNotes == HasNotes(kinds)
      {
        ghost var at := c.pos;
        var definition := ReadDefinitionEntry(c);
        ghost var kind := DefinitionKind(c.data, at);
        assert step(at) == kind;
        RepeatStep(step, start, i, kinds, at, kind);
        if definition.Failure? {
          RepeatStops(step, start, i + 1, count);
          return Failure(definition.error);
        }
        HasNotesAppend(kinds, kind.0.value);
        hasNotes := hasNotes || (definition.value == NoteDefinitionName && i == 0);
        kinds := kinds + [kind.0.value];
        i := i + 1;
      }
      return Success(hasNotes);
    }

    /** One marker record, and whether it was a float record. */
    static method ReadMarker(c: Cursor, snap: F32 -> Option<int>) returns (r: Result<(Note, bool), ReadError>)
      modifies c`pos
      ensures (r, c.pos) == DecodeMarker(c.data, old(c.pos), snap)
    {
      var ms := c.Read(4);
      var _ := c.Read(1);
      var flag := c.Read(1);
      if FromLe(flag) == 0 {
        var x := c.Read(1);
        var y := c.Read(1);
        return Success((Note(Grid(FromLe(x)), Grid(FromLe(y)), FromLe(ms)), false));
      }
      var x := c.Read(4);
      var y := c.Read(4);
      if |x| < 4 || |y| < 4 {
        return Failure(ShortFloat);
      }
      return Success((Note(Free(x, snap(x)), Free(y, snap(y)), FromLe(ms)), true));
    }

    /** The note loop: `count` records in file order, and whether any was a float record. */
    static method ReadMarkers(c: Cursor, count: nat, snap: F32 -> Option<int>) returns (r: Result<(seq<Note>, bool), ReadError>)
      modifies c`pos
      ensures (r, c.pos) == DecodeMarkers(c.data, old(c.pos), count, snap)
    {
      ghost var start := c.pos;
      ghost var step := MarkerStep(c.data, snap);
      ghost var records: seq<(Note, bool)> := [];
      var notes: seq<Note> := [];
      var quantum := false;
      var i := 0;
      while i < count
        invariant 0 <= i <= count
        invariant Repeat(step, start, i) == (Success(records), c.pos)
        invariant notes == RecordNotes(records) && quantum == AnyFloat(records)
      {
        ghost var at := c.pos;
        var m := ReadMarker(c, snap);
        assert step(at) == (m, c.pos);
        RepeatStep(step, start, i, records, at, (m, c.pos));
        if m.Failure? {
          RepeatStops(step, start, i + 1, count);
          return Failure(m.error);
        }
        RecordsAppend(records, m.value);
        notes := notes + [m.value.0];
        quantum := quantum || m.value.1;
        records := records + [m.value];
        assert notes == RecordNotes(records);
        assert quantum == AnyFloat(records);
        i := i + 1;
      }
      return Success((notes, quantum));
    }

    /** Sections of `_ProcessSSPMV2` up to the custom data block. */
    static method ReadLeading(c: Cursor) returns (meta: Meta, pointers: Pointers, texts: Result<ReadModel.Texts, ReadError>)
      modifies c`pos
      ensures var (m, p0) := MetaStage(c.data, old(c.pos));
              var (q, p1) := PointerStage(c.data, p0);
              meta == m && pointers == q && (texts, c.pos) == ReadModel.TextsStage(c.data, p1)
    {
      meta := ReadMetadata(c);
      pointers := ReadPointers(c);
      texts := ReadTexts(c);
    }

    /** Sections of `_ProcessSSPMV2` after the texts: custom data, audio, cover, definitions, notes. */
    static method ReadTrailing(c: Cursor, meta: Meta, pointers: Pointers, texts: ReadModel.Texts, snap: F32 -> Option<int>)
      returns (r: Result<V2Read, ReadError>)
      modifies c`pos
      ensures (r, c.pos) == TrailingStages(c.data, old(c.pos), meta, pointers, texts, snap)
    {
      var seek := SkipCustomData(c, pointers.audioOffset);
      if seek.Some? {
        return Failure(seek.value);
      }
      var audio := ReadSection(c, meta.containsAudio, pointers.audioLength);
      if audio.Failure? {
        return Failure(audio.error);
      }
      var cover := ReadSection(c, meta.containsCover, pointers.coverLength);
      if cover.Failure? {
        return Failure(cover.error);
      }
      var has := ReadDefinitionList(c);
      if has.Failure? {
        return Failure(has.error);
      }
      if !has.value {
        return Success(V2Read(meta, pointers, texts, audio.value, cover.value, false, None));
      }
      var ns := ReadMarkers(c, FromLe(meta.noteCount), snap);
      if ns.Failure? {
        return Failure(ns.error);
      }
      return Success(V2Read(meta, pointers, texts, audio.value, cover.value, true, Some((SortByMs(ns.value.0), ns.value.1))));
    }

    /** `_ProcessSSPMV2`: every section, in file order. */
    static method ProcessV2(c: Cursor, snap: F32 -> Option<int>) returns (r: Result<V2Read, ReadError>)
      modifies c`pos
      ensures (r, c.pos) == ReadV2(c.data, old(c.pos), snap)
    {
      var meta, pointers, texts := ReadLeading(c);
      if texts.Failure? {
        return Failure(texts.error);
      }
      r := ReadTrailing(c, meta, pointers, texts.value, snap);
    }

    /** `_ProcessSSPMV1`: two newline-terminated strings, then the failing attribute access. */
    static method ProcessV1(c: Cursor) returns (e: ReadError)
      modifies c`pos
      ensures (e, c.pos) == ReadV1(c.data, old(c.pos))
    {
      var id := NewLineTerminatedString(c);
      if id.Failure? {
        return id.error;
      }
      var name := NewLineTerminatedString(c);
      if name.Failure? {
        return name.error;
      }
      return V1MissingAttribute;
    }

    /** The metadata attributes, as `_ProcessSSPMV2` assigns them. */
    method StoreMeta(m: Meta)
      modifies this`hash, this`lastMs, this`noteCount, this`markerCount, this`difficulty, this`mapRating,
               this`containsAudio, this`containsCover, this`requiresMod
      ensures hash == m.hash && lastMs == PyInt(FromLe(m.lastMs)) && noteCount == m.noteCount
      ensures markerCount == m.markerCount && difficulty == PyBytes(m.difficulty) && mapRating == m.mapRating
      ensures containsAudio == m.containsAudio && containsCover == m.containsCover
      ensures requiresMod == PyBytes(m.requiresMod)
    {
      hash := m.hash;
      lastMs := PyInt(FromLe(m.lastMs));
      noteCount := m.noteCount;
      markerCount := m.markerCount;
      difficulty := PyBytes(m.difficulty);
      mapRating := m.mapRating;
      containsAudio := m.containsAudio;
      containsCover := m.containsCover;
      requiresMod := PyBytes(m.requiresMod);
    }

    /** The text attributes and `has_notes`; `Notes` and `is_quantum` only when notes were read. */
    method StoreRest(v: V2Read)
      modifies this`pointers, this`mapId, this`mapName, this`songName, this`mappers, this`hasNotes,
               this`notes, this`isQuantum
      ensures pointers == v.pointers && mapId == PyStr(v.texts.mapId) && mapName == PyStr(v.texts.mapName)
      ensures songName == PyStr(v.texts.songName) && mappers == Some(v.texts.mappers) && hasNotes == Some(v.hasNotes)
      ensures notes == (if v.notes.Some? then Some(v.notes.value.0) else old(notes))
      ensures isQuantum == (if v.notes.Some? then Some(v.notes.value.1) else old(isQuantum))
    {
      pointers := v.pointers;
      mapId := PyStr(v.texts.mapId);
      mapName := PyStr(v.texts.mapName);
      songName := PyStr(v.texts.songName);
      mappers := Some(v.texts.mappers);
      hasNotes := Some(v.hasNotes);
      if v.notes.Some? {
        notes := Some(v.notes.value.0);
        isQuantum := Some(v.notes.value.1);
      }
    }

    /** The signature check, then `_ProcessSSPMV1` or `_ProcessSSPMV2` as the header's version says. */
    static method ProcessBody(c: Cursor, h: HeaderField, snap: F32 -> Option<int>) returns (r: Result<V2Read, ReadError>)
      requires h.HeaderDict?
      modifies c`pos
      ensures (r, c.pos) == ReadBody(c.data, old(c.pos), h, snap)
    {
      if h.signature != HeaderSignature {
        return Failure(BadSignature);
      }
      if h.version != 2 {
        var err := ProcessV1(c);
        return Failure(err);
      }
      r := ProcessV2(c, snap);
    }

    /** Every attribute a successful version 2 read assigns, besides the audio and the cover. */
    method StoreV2(v: V2Read)
      modifies this`hash, this`lastMs, this`noteCount, this`markerCount, this`difficulty, this`mapRating,
               this`containsAudio, this`containsCover, this`requiresMod, this`pointers, this`mapId, this`mapName,
               this`songName, this`mappers, this`hasNotes, this`notes, this`isQuantum
      ensures Loaded() == StoredV2(v, old(Loaded()))
    {
      StoreMeta(v.meta);
      StoreRest(v);
    }

    /** The attributes a version 2 read sets, assigned only when it succeeds. */
    method Load(r: Result<(HeaderField, V2Read), ReadError>)
      modifies this`audioBytes, this`coverBytes, this`hash, this`lastMs, this`noteCount,
               this`markerCount, this`difficulty, this`mapRating, this`containsAudio, this`containsCover,
               this`requiresMod, this`pointers, this`mapId, this`mapName, this`songName, this`mappers,
               this`hasNotes, this`notes, this`isQuantum
      ensures r.Success? ==> audioBytes == r.value.1.audio && coverBytes == r.value.1.cover
      ensures r.Failure? ==> audioBytes == old(audioBytes) && coverBytes == old(coverBytes)
      ensures Loaded() == StoredRead(r, old(Loaded()))
    {
      if r.Success? {
        StoreV2(r.value.1);
        audioBytes := r.value.1.audio;
        coverBytes := r.value.1.cover;
      }
    }

    /**
     * `ReadSSPM(file)`: the audio and cover are cleared, the header is read
     * and checked, and the version 2 sections are stored. `f` is the whole
     * read as `ReadFile` describes it; the result is the error raised, if any.
     * A bad signature and a version 1 file fail before any section is read,
     * so audio and cover stay cleared; after a later failure only the
     * successful read's attributes are modelled.
     */
    method ReadSSPM(c: Cursor, snap: F32 -> Option<int>)
      returns (e: Option<ReadError>, ghost f: (Result<(HeaderField, V2Read), ReadError>, nat))
      modifies this`header, this`audioBytes, this`coverBytes, this`hash, this`lastMs, this`noteCount,
               this`markerCount, this`difficulty, this`mapRating, this`containsAudio, this`containsCover,
               this`requiresMod, this`pointers, this`mapId, this`mapName, this`songName, this`mappers,
               this`hasNotes, this`notes, this`isQuantum, c`pos
      ensures f == ReadFile(c.data, old(c.pos), snap) && c.pos == f.1
      ensures e.None? <==> f.0.Success?
      ensures e.Some? ==> f.0 == Failure(e.value)
      ensures header == HeaderStage(c.data, old(c.pos)).0
      ensures f.0.Success? ==> audioBytes == f.0.value.1.audio && coverBytes == f.0.value.1.cover
      ensures f.0.Failure? && (f.0.error == BadSignature || header.version != 2) ==> audioBytes == None && coverBytes == None
      ensures Loaded() == StoredRead(f.0, old(Loaded()))
    {
      ghost var start := c.pos;
      ghost var before := Loaded();
      coverBytes := None;
      audioBytes := None;
      ReadHeader(c);
      assert Loaded() == before;
      ghost var afterHeader := c.pos;
      var v := ProcessBody(c, header, snap);
      var read := if v.Failure? then Failure(v.error) else Success((header, v.value));
      Load(read);
      ReadFileSplit(c.data, start, snap, header, afterHeader, v, c.pos);
      e := if v.Failure? then Some(v.error) else None;
      f := (read, c.pos);
    }

    // -------------------------------------------------------------------
    // NOTES2TEXT

    /**
     * `NOTES2TEXT()`: `,x|y|ms` for each note, in list order. `None` stands
     * for the `TypeError` that iterating over `Notes` raises while it is
     * still `None`.
     */
    method Notes2Text() returns (r: Option<string>)
      requires notes.Some? ==> GridNotes(notes.value)
      ensures r.None? <==> notes.None?
      ensures notes.Some? ==> r == Some(NotesText(notes.value))
    {
      if notes.None? {
        return None;
      }
      var ns := notes.value;
      var text := "";
      var i := 0;
      while i < |ns|
        invariant 0 <= i <= |ns|
        invariant GridNotes(ns[..i])
        invariant text == NotesText(ns[..i])
      {
        assert Init(ns[..i + 1]) == ns[..i] && Last(ns[..i + 1]) == ns[i];
        text := text + NoteText(ns[i]);
        i := i + 1;
      }
      assert ns[..i] == ns;
      return Some(text);
    }
  }
}
