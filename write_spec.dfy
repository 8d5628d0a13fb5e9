/**
 * What `SSPMParser.WriteSSPM` computes, as functions of the parser state
 * before the call. Each stage returns the state as the source leaves it,
 * also when it raises part-way, together with the outcome.
 */
module WriteModel {
  import opened Wrappers
  import opened Bytes
  import opened NoteModel
  import opened SspmState

  // ---------------------------------------------------------------------
  // Text helpers

  /** `sep.join(parts)`. */
  function Join(parts: seq<string>, sep: string): (r: string)
    ensures parts == [] ==> r == ""
    ensures |parts| == 1 ==> r == parts[0]
  {
    if parts == [] then ""
    else if |parts| == 1 then parts[0]
    else parts[0] + sep + Join(parts[1..], sep)
  }

  /** `s.replace(a, b)` for one-character `a` and `b`. */
  function ReplaceChar(s: string, a: char, b: char): (r: string)
    ensures |r| == |s|
    ensures forall i :: 0 <= i < |s| ==> r[i] == (if s[i] == a then b else s[i])
  {
    seq(|s|, i requires 0 <= i < |s| => if s[i] == a then b else s[i])
  }

  /** A string field preceded by its 2-byte little-endian length. */
  function LengthPrefixed(b: seq<byte>): (r: seq<byte>)
    requires |b| < 65536
    ensures |r| == 2 + |b|
  {
    Le(|b|, 2) + b
  }

  // ---------------------------------------------------------------------
  // Strings section

  /** `s.encode("ASCII")` as a write outcome. */
  function Encoded(s: string): (r: Result<seq<byte>, WriteError>)
    ensures r.Success? <==> IsAscii(s)
    ensures r.Success? ==> AsciiEncode(s) == Some(r.value)
    ensures r.Failure? ==> r.error == NonAscii
  {
    if AsciiEncode(s).Some? then Success(AsciiEncode(s).value) else Failure(NonAscii)
  }

  /** `song_name`: the default name when the field is falsy, else its ASCII encoding. */
  function SongNameBytes(v: PyValue): (r: Result<seq<byte>, WriteError>)
    ensures !Truthy(v) ==> r == Encoded(DefaultSongName)
    ensures v.PyStr? && v.s != "" ==> r == Encoded(v.s)
    ensures Truthy(v) && !v.PyStr? ==> r == Failure(NotText)
  {
    if !Truthy(v) then Encoded(DefaultSongName)
    else if v.PyStr? then Encoded(v.s)
    else Failure(NotText)
  }

  /**
   * `map_ID`: mappers joined by "_", then "_", then the map name with its
   * spaces replaced by "_"; with `forcemapid`, the stored map ID as it is.
   */
  function MapIdText(mappers: Option<seq<string>>, mapName: PyValue, mapId: PyValue, forceMapId: bool): (r: Result<string, WriteError>)
    ensures !forceMapId ==> (r.Success? <==> mappers.Some? && mapName.PyStr?)
    ensures forceMapId ==> (r.Success? <==> mapId.PyStr?)
  {
    if !forceMapId then
      if mappers.None? || !mapName.PyStr? then Failure(NotText)
      else Success(Join(mappers.value, "_") + "_" + ReplaceChar(mapName.s, ' ', '_'))
    else if mapId.PyStr? then Success(mapId.s)
    else Failure(NotText)
  }

  /** The mapper list: for each mapper its 2-byte length and its ASCII bytes. */
  function MappersSection(ms: seq<string>): (r: Result<seq<byte>, WriteError>)
    ensures r.Success? ==> |r.value| >= 2 * |ms|
  {
    if ms == [] then Success([])
    else
      var init := MappersSection(Init(ms));
      if init.Failure? then init
      else
        var e := AsciiEncode(Last(ms));
        if e.None? then Failure(NonAscii)
        else if |e.value| >= 65536 then Failure(OutOfRange)
        else Success(init.value + LengthPrefixed(e.value))
  }

  /** The mapper list encodes exactly when every mapper is ASCII and shorter than 65536 characters. */
  lemma {:induction false} MappersSectionSucceeds(ms: seq<string>)
    ensures MappersSection(ms).Success? <==> forall i :: 0 <= i < |ms| ==> IsAscii(ms[i]) && |ms[i]| < 65536
  {
    if ms != [] {
      MappersSectionSucceeds(Init(ms));
      assert forall i :: 0 <= i < |Init(ms)| ==> Init(ms)[i] == ms[i];
      assert ms[|ms| - 1] == Last(ms);
    }
  }

  /** One more mapper fails the list, or appends its length and bytes to the section of the mappers before it. */
  lemma MappersSectionStep(ms: seq<string>, k: nat, acc: seq<byte>)
    requires k < |ms| && MappersSection(ms[..k]) == Success(acc)
    ensures var e := AsciiEncode(ms[k]);
            MappersSection(ms[..k + 1])
              == if e.None? then Failure(NonAscii)
                 else if |e.value| >= 65536 then Failure(OutOfRange)
                 else Success(acc + LengthPrefixed(e.value))
  {
    assert Init(ms[..k + 1]) == ms[..k] && Last(ms[..k + 1]) == ms[k];
  }

  /** Once a prefix of the mapper list fails, the whole list fails the same way. */
  lemma {:induction false} MappersSectionStops(ms: seq<string>, k: nat)
    requires k <= |ms| && MappersSection(ms[..k]).Failure?
    ensures MappersSection(ms) == MappersSection(ms[..k])
    decreases |ms| - k
  {
    if k < |ms| {
      assert ms[..|ms| - 1][..k] == ms[..k];
      MappersSectionStops(ms[..|ms| - 1], k);
      assert Init(ms) == ms[..|ms| - 1];
    } else {
      assert ms[..k] == ms;
    }
  }

  // ---------------------------------------------------------------------
  // Markers section

  /** The integer a coordinate rounds to, when it passes the two-decimal test. */
  function Snapped(c: Coord): Option<int> {
    match c
    case Grid(n) => Some(n)
    case Free(_, snap) => snap
  }

  /** `np.float32(v).tobytes()`; the float32 of an int is a parameter. */
  function FloatBytes(c: Coord, fromInt: int -> F32): F32 {
    match c
    case Grid(n) => fromInt(n)
    case Free(bits, _) => bits
  }

  /** True when a note is written as a grid record (identifier 0). */
  predicate IsGridRecord(n: Note) {
    Snapped(n.x).Some? && Snapped(n.y).Some?
  }

  /**
   * One marker record: time plus export offset (4 bytes), type 0, then
   * identifier 0 with one byte per coordinate (the low byte of a uint16),
   * or identifier 1 with two float32 values.
   */
  function EncodeMarker(n: Note, exportOffset: int, fromInt: int -> F32): (r: Result<seq<byte>, WriteError>)
    ensures r.Success? ==> |r.value| == (if IsGridRecord(n) then 8 else 14)
    ensures r.Success? <==> 0 <= n.ms + exportOffset < Pow256(4)
                            && (IsGridRecord(n) ==> 0 <= Snapped(n.x).value < 65536 && 0 <= Snapped(n.y).value < 65536)
  {
    var ms := Unsigned(n.ms + exportOffset, 4);
    if ms.None? then Failure(OutOfRange)
    else if IsGridRecord(n) then
      var xb := Unsigned(Snapped(n.x).value, 2);
      var yb := Unsigned(Snapped(n.y).value, 2);
      if xb.None? || yb.None? then Failure(OutOfRange)
      else Success(ms.value + [0x00, 0x00] + xb.value[..1] + yb.value[..1])
    else
      Success(ms.value + [0x00, 0x01] + FloatBytes(n.x, fromInt) + FloatBytes(n.y, fromInt))
  }

  /**
   * The bytes of one record: the time plus export offset in 4 bytes, the
   * type byte 0, the identifier, then the low byte of each rounded
   * coordinate (identifier 0) or the two float32 values (identifier 1).
   */
  lemma EncodeMarkerFields(n: Note, exportOffset: int, fromInt: int -> F32)
    requires EncodeMarker(n, exportOffset, fromInt).Success?
    ensures var b := EncodeMarker(n, exportOffset, fromInt).value;
            && FromLe(b[..4]) == n.ms + exportOffset && b[4] == 0x00
            && b[5] == (if IsGridRecord(n) then 0x00 else 0x01)
            && (IsGridRecord(n) ==> b[6] == Snapped(n.x).value % 256 && b[7] == Snapped(n.y).value % 256)
            && (!IsGridRecord(n) ==> b[6..10] == FloatBytes(n.x, fromInt) && b[10..] == FloatBytes(n.y, fromInt))
  {
    var ms := Unsigned(n.ms + exportOffset, 4).value;
    var b := EncodeMarker(n, exportOffset, fromInt).value;
    assert b[..4] == ms;
    if IsGridRecord(n) {
      var xb := Unsigned(Snapped(n.x).value, 2).value;
      var yb := Unsigned(Snapped(n.y).value, 2).value;
      FromLeLe(Snapped(n.x).value, 2);
      LeFromLe(xb);
      LeFromLe(yb);
      assert b[6] == xb[0] && b[7] == yb[0];
    }
  }

  /** All marker records, in the order of `Notes`; the first note that does not fit fails the write. */
  function EncodeMarkers(ns: seq<Note>, exportOffset: int, fromInt: int -> F32): Result<seq<byte>, WriteError> {
    if ns == [] then Success([])
    else
      var init := EncodeMarkers(Init(ns), exportOffset, fromInt);
      if init.Failure? then init
      else
        var m := EncodeMarker(Last(ns), exportOffset, fromInt);
        if m.Failure? then m else Success(init.value + m.value)
  }

  /** The markers are written exactly when every note's record fits. */
  lemma {:induction false} EncodeMarkersSuccess(ns: seq<Note>, exportOffset: int, fromInt: int -> F32)
    ensures EncodeMarkers(ns, exportOffset, fromInt).Success?
            <==> forall i :: 0 <= i < |ns| ==> EncodeMarker(ns[i], exportOffset, fromInt).Success?
  {
    if ns != [] {
      EncodeMarkersSuccess(Init(ns), exportOffset, fromInt);
      assert forall i :: 0 <= i < |Init(ns)| ==> Init(ns)[i] == ns[i];
    }
  }

  /** Once a prefix of the notes fails, the whole write of markers fails the same way. */
  lemma {:induction false} EncodeMarkersStops(ns: seq<Note>, exportOffset: int, fromInt: int -> F32, k: nat)
    requires k <= |ns| && EncodeMarkers(ns[..k], exportOffset, fromInt).Failure?
    ensures EncodeMarkers(ns, exportOffset, fromInt) == EncodeMarkers(ns[..k], exportOffset, fromInt)
    decreases |ns| - k
  {
    if k < |ns| {
      assert ns[..|ns| - 1][..k] == ns[..k];
      EncodeMarkersStops(ns[..|ns| - 1], exportOffset, fromInt, k);
      assert Init(ns) == ns[..|ns| - 1];
    } else {
      assert ns[..k] == ns;
    }
  }

  /** One more note that fits appends its record to the markers of the notes before it. */
  lemma EncodeMarkersStep(ns: seq<Note>, exportOffset: int, fromInt: int -> F32, k: nat, acc: seq<byte>)
    requires k < |ns| && EncodeMarkers(ns[..k], exportOffset, fromInt) == Success(acc)
    ensures var m := EncodeMarker(ns[k], exportOffset, fromInt);
            EncodeMarkers(ns[..k + 1], exportOffset, fromInt)
              == if m.Failure? then m else Success(acc + m.value)
  {
    assert Init(ns[..k + 1]) == ns[..k] && Last(ns[..k + 1]) == ns[k];
  }

  // ---------------------------------------------------------------------
  // Stages of WriteSSPM

  function Flag(b: bool): seq<byte> { if b then [0x01] else [0x00] }

  /** `requires_mod` as the write stores it: 1 for the int 1 or the byte 01, else 0. */
  function RequiresModFlag(v: PyValue): (r: seq<byte>)
    ensures |r| == 1
  {
    Flag(v == PyInt(1) || v == PyBytes([0x01]))
  }

  /** `Difficulty` after the name lookup: a known name becomes its number. */
  function DifficultyLookup(v: PyValue): (r: PyValue)
    ensures v.PyStr? && v.s in Difficulties ==> r == PyInt(Difficulties[v.s])
    ensures !(v.PyStr? && v.s in Difficulties) ==> r == v
  {
    if v.PyStr? && v.s in Difficulties then PyInt(Difficulties[v.s]) else v
  }

  /** The values the first stage stores: provisional `last_ms`, the note count, `Difficulty`. */
  datatype Config = Config(lastMs: seq<byte>, count: seq<byte>, difficulty: PyValue)

  /**
   * Provisional `last_ms` (the time of the last note in list order), the
   * note and marker count, and `Difficulty` looked up by name and turned
   * into one byte when it is an int.
   */
  function ConfigStage(notes: Option<seq<Note>>, difficulty: PyValue): Result<Config, WriteError>
  {
    if notes.None? then Failure(NotesMissing)
    else if notes.value == [] then Failure(NotesEmpty)
    else
      var last := Unsigned(Last(notes.value).ms, 4);
      var count := Unsigned(|notes.value|, 4);
      var d := DifficultyLookup(difficulty);
      if last.None? || count.None? then Failure(OutOfRange)
      else if d.PyInt? && !(0 <= d.i < 256) then Failure(OutOfRange)
      else Success(Config(last.value, count.value, if d.PyInt? then PyBytes([d.i]) else d))
  }

  /** When the first stage fails, with which error, and what it stores. */
  lemma ConfigStageOutcome(notes: Option<seq<Note>>, difficulty: PyValue)
    ensures var r := ConfigStage(notes, difficulty);
            && (r.Success? <==> && notes.Some? && notes.value != []
                                && 0 <= Last(notes.value).ms < Pow256(4) && |notes.value| < Pow256(4)
                                && (DifficultyLookup(difficulty).PyInt? ==> 0 <= DifficultyLookup(difficulty).i < 256))
            && (notes.None? ==> r == Failure(NotesMissing))
            && (notes == Some([]) ==> r == Failure(NotesEmpty))
            && (r.Failure? && notes.Some? && notes.value != [] ==> r.error == OutOfRange)
            && (r.Success? ==> && |r.value.lastMs| == 4 && FromLe(r.value.lastMs) == Last(notes.value).ms
                               && |r.value.count| == 4 && FromLe(r.value.count) == |notes.value|
                               && var d := DifficultyLookup(difficulty);
                                  r.value.difficulty == if d.PyInt? then PyBytes([d.i]) else d)
  {
  }

  /** The encoded song name, map ID and map name the write stores. */
  datatype Texts = Texts(songName: seq<byte>, mapId: seq<byte>, mapName: seq<byte>)

  /** Song name, map ID and map name encoded, each short enough for its 2-byte length. */
  function TextsStage(songName: PyValue, mapName: PyValue, mappers: Option<seq<string>>, mapId: PyValue,
                      forceMapId: bool): Result<Texts, WriteError>
  {
    var song :- SongNameBytes(songName);
    var idText :- MapIdText(mappers, mapName, mapId, forceMapId);
    var id :- Encoded(idText);
    if |id| >= 65536 then Failure(OutOfRange)
    else if !mapName.PyStr? then Failure(NotText)
    else
      var name :- Encoded(mapName.s);
      if |name| >= 65536 || |song| >= 65536 then Failure(OutOfRange)
      else Success(Texts(song, id, name))
  }

  /**
   * The strings section: map ID, map name and song name, each with its
   * 2-byte length, then the mapper count and the mapper list.
   */
  function StringsStage(songName: PyValue, mapName: PyValue, mappers: Option<seq<string>>, mapId: PyValue,
                        forceMapId: bool): Result<(Texts, seq<byte>), WriteError>
  {
    var t :- TextsStage(songName, mapName, mappers, mapId, forceMapId);
    if mappers.None? then Failure(NotText)
    else if |mappers.value| >= 65536 then Failure(OutOfRange)
    else
      var section :- MappersSection(mappers.value);
      Success((t, LengthPrefixed(t.mapId) + LengthPrefixed(t.mapName) + LengthPrefixed(t.songName)
                  + Le(|mappers.value|, 2) + section))
  }

  /** When the strings stage succeeds, and the encodings it stores. */
  lemma StringsStageOutcome(songName: PyValue, mapName: PyValue, mappers: Option<seq<string>>, mapId: PyValue,
                            forceMapId: bool)
    ensures var r := StringsStage(songName, mapName, mappers, mapId, forceMapId);
            var idText := MapIdText(mappers, mapName, mapId, forceMapId);
            && (r.Success? <==> && SongNameBytes(songName).Success? && |SongNameBytes(songName).value| < 65536
                                && idText.Success? && IsAscii(idText.value) && |idText.value| < 65536
                                && mapName.PyStr? && IsAscii(mapName.s) && |mapName.s| < 65536
                                && mappers.Some? && |mappers.value| < 65536
                                && MappersSection(mappers.value).Success?)
            && (r.Success? ==> && SongNameBytes(songName) == Success(r.value.0.songName)
                               && AsciiEncode(idText.value) == Some(r.value.0.mapId)
                               && AsciiEncode(mapName.s) == Some(r.value.0.mapName))
  {
  }

  /** Byte offsets of the sections, in file order. */
  datatype Layout = Layout(custom: nat, audio: nat, cover: nat, definitions: nat, markers: nat)

  /**
   * The offsets the pointer table records. An absent audio or cover
   * section still advances the offset by 8, the width of its zero length.
   */
  function SectionLayout(metadataSize: nat, stringsSize: nat, audio: Option<seq<byte>>, cover: Option<seq<byte>>): (l: Layout)
    ensures l.custom == 10 + 20 + metadataSize + 80 + stringsSize
    ensures l.audio == l.custom + 2
    ensures l.cover == l.audio + (if audio.Some? then |audio.value| else 8)
    ensures l.definitions == l.cover + (if cover.Some? then |cover.value| else 8)
    ensures l.markers == l.definitions + |MarkerDefinitions|
  {
    var custom := |WrittenHeader| + 20 + metadataSize + 80 + stringsSize;
    var audioAt := custom + 2;
    var coverAt := audioAt + (if audio.Some? then |audio.value| else |ZeroLength|);
    var defsAt := coverAt + (if cover.Some? then |cover.value| else |ZeroLength|);
    Layout(custom, audioAt, coverAt, defsAt, defsAt + |MarkerDefinitions|)
  }

  function PointerBytes(p: Pointers): seq<byte>
    requires p.customDataOffset.PyBytes?
  {
    p.customDataOffset.b + p.customDataLength + p.audioOffset + p.audioLength
    + p.coverOffset + p.coverLength + p.markerDefinitionsOffset + p.markerDefinitionsLength
    + p.markerOffset + p.markerLength
  }

  /** The metadata block: last_ms, two counts, difficulty, rating 00 00, three flags. */
  function MetadataBytes(lastMs: seq<byte>, count: seq<byte>, difficulty: seq<byte>,
                         audio: Option<seq<byte>>, cover: Option<seq<byte>>, modFlag: seq<byte>): seq<byte>
  {
    lastMs + count + count + difficulty + [0x00, 0x00] + Flag(audio.Some?) + Flag(cover.Some?) + modFlag
  }

  /** What a successful write stores and returns. */
  datatype Written = Written(
    file: seq<byte>, lastMs: seq<byte>, difficulty: seq<byte>,
    pointers: Pointers, audio: seq<byte>, cover: seq<byte>)

  /**
   * The pointer table for a layout: each section's offset and length as
   * 8-byte little-endian numbers. An absent audio or cover section records
   * a zero length.
   */
  function PointerValues(l: Layout, audio: Option<seq<byte>>, cover: Option<seq<byte>>, markersSize: nat): (p: Pointers)
    requires l.custom <= l.audio <= l.cover <= l.definitions <= l.markers < U64Limit && markersSize < U64Limit
    requires audio.Some? ==> |audio.value| <= l.cover
    requires cover.Some? ==> |cover.value| <= l.definitions
  {
    Pointers(
      PyBytes(U64(l.custom)), U64(2),
      U64(l.audio), if audio.Some? then U64(|audio.value|) else ZeroLength,
      U64(l.cover), if cover.Some? then U64(|cover.value|) else ZeroLength,
      U64(l.definitions), U64(|MarkerDefinitions|),
      U64(l.markers), U64(markersSize))
  }

  /**
   * The pointer table of a write; `None` when an offset or length does not
   * fit (`np.uint64` raises OverflowError).
   */
  function PointerTable(metadataSize: nat, stringsSize: nat, audio: Option<seq<byte>>, cover: Option<seq<byte>>,
                        markersSize: nat): (r: Option<Pointers>)
    ensures r.Some? <==> SectionLayout(metadataSize, stringsSize, audio, cover).markers < U64Limit
                         && markersSize < U64Limit
    ensures r.Some? ==> r.value.customDataOffset.PyBytes?
  {
    var l := SectionLayout(metadataSize, stringsSize, audio, cover);
    if l.markers >= U64Limit || markersSize >= U64Limit then None
    else Some(PointerValues(l, audio, cover, markersSize))
  }

  /**
   * The final stage: `last_ms` from the running maximum, the metadata, the
   * pointer table and the concatenated file. `count`, `difficulty` and
   * `modFlag` are the values the first stage stored.
   */
  function Assemble(count: seq<byte>, difficulty: PyValue, audio: Option<seq<byte>>, cover: Option<seq<byte>>,
                    modFlag: seq<byte>, strings: seq<byte>, markers: seq<byte>, maxMs: int,
                    sha1: seq<byte> -> Digest): Result<Written, WriteError>
  {
    var last := Unsigned(maxMs, 4);
    if last.None? then Failure(OutOfRange)
    else if !difficulty.PyBytes? then Failure(DifficultyNotBytes)
    else
      var metadata := MetadataBytes(last.value, count, difficulty.b, audio, cover, modFlag);
      var p := PointerTable(|metadata|, |strings|, audio, cover, |markers|);
      if p.None? then Failure(OutOfRange)
      else
        var audioBytes := if audio.Some? then audio.value else [];
        var coverBytes := if cover.Some? then cover.value else [];
        Success(Written(Concat([WrittenHeader, sha1(MarkerDefinitions + markers), metadata,
                                PointerBytes(p.value), strings, [0x00, 0x00], audioBytes, coverBytes,
                                MarkerDefinitions, markers]),
                        last.value, difficulty.b, p.value, audioBytes, coverBytes))
  }

  /** When the final stage fails, with which error, and what it stores. */
  lemma AssembleOutcome(count: seq<byte>, difficulty: PyValue, audio: Option<seq<byte>>, cover: Option<seq<byte>>,
                        modFlag: seq<byte>, strings: seq<byte>, markers: seq<byte>, maxMs: int,
                        sha1: seq<byte> -> Digest)
    ensures var r := Assemble(count, difficulty, audio, cover, modFlag, strings, markers, maxMs, sha1);
            && (r.Success? <==> && 0 <= maxMs < Pow256(4) && difficulty.PyBytes?
                                && PointerTable(|MetadataBytes(Le(maxMs, 4), count, difficulty.b, audio, cover, modFlag)|,
                                                |strings|, audio, cover, |markers|).Some?)
            && (!(0 <= maxMs < Pow256(4)) ==> r == Failure(OutOfRange))
            && (0 <= maxMs < Pow256(4) && !difficulty.PyBytes? ==> r == Failure(DifficultyNotBytes))
            && (r.Success? ==> && FromLe(r.value.lastMs) == maxMs && r.value.difficulty == difficulty.b
                               && r.value.audio == (if audio.Some? then audio.value else [])
                               && r.value.cover == (if cover.Some? then cover.value else []))
  {
  }

  /** What a successful `WriteSSPM` leaves in the attributes it converts. */
  datatype Stored = Stored(config: Config, texts: Texts, written: Written)

  /** `WriteSSPM` on the attributes after the keyword arguments: what it stores and returns, or its error. */
  function WriteFile(i: WriteInput, forceMapId: bool, sha1: seq<byte> -> Digest, fromInt: int -> F32): Result<Stored, WriteError>
  {
    var c := ConfigStage(i.notes, i.difficulty);
    if c.Failure? then Failure(c.error)
    else
      var t := StringsStage(i.songName, i.mapName, i.mappers, i.mapId, forceMapId);
      if t.Failure? then Failure(t.error)
      else
        var m := EncodeMarkers(i.notes.value, i.exportOffset, fromInt);
        if m.Failure? then Failure(m.error)
        else
          var w := Assemble(c.value.count, c.value.difficulty, i.audioBytes, i.coverBytes, RequiresModFlag(i.requiresMod),
                            t.value.1, m.value, MaxMs(i.notes.value), sha1);
          if w.Failure? then Failure(w.error)
          else Success(Stored(c.value, t.value.0, w.value))
  }

  /** A successful write went through every stage, and stores what each stage produced. */
  lemma WriteFileStages(i: WriteInput, forceMapId: bool, sha1: seq<byte> -> Digest, fromInt: int -> F32)
    requires WriteFile(i, forceMapId, sha1, fromInt).Success?
    ensures var w := WriteFile(i, forceMapId, sha1, fromInt).value;
            var c := ConfigStage(i.notes, i.difficulty);
            var t := StringsStage(i.songName, i.mapName, i.mappers, i.mapId, forceMapId);
            && c.Success? && t.Success? && i.notes.Some?
            && EncodeMarkers(i.notes.value, i.exportOffset, fromInt).Success?
            && w.config == c.value && w.texts == t.value.0
            && Success(w.written) == Assemble(c.value.count, c.value.difficulty, i.audioBytes, i.coverBytes,
                                              RequiresModFlag(i.requiresMod), t.value.1,
                                              EncodeMarkers(i.notes.value, i.exportOffset, fromInt).value,
                                              MaxMs(i.notes.value), sha1)
  {
  }
  /**
   * A successful write leaves `song_name` as non-empty bytes, and bytes
   * have no `encode`: writing again with the same notes, without passing a
   * new song name, fails on the song name whatever else is set.
   */
  lemma RewriteFails(i: WriteInput, forceMapId: bool, sha1: seq<byte> -> Digest, fromInt: int -> F32,
                     j: WriteInput, forceMapId': bool, sha1': seq<byte> -> Digest, fromInt': int -> F32)
    requires WriteFile(i, forceMapId, sha1, fromInt).Success?
    requires j.notes == i.notes && j.difficulty.PyBytes?
    requires j.songName == PyBytes(WriteFile(i, forceMapId, sha1, fromInt).value.texts.songName)
    ensures WriteFile(j, forceMapId', sha1', fromInt') == Failure(NotText)
  {
    WriteFileStages(i, forceMapId, sha1, fromInt);
    ConfigStageOutcome(i.notes, i.difficulty);
    ConfigStageOutcome(j.notes, j.difficulty);
    StringsStageOutcome(i.songName, i.mapName, i.mappers, i.mapId, forceMapId);
    var song := WriteFile(i, forceMapId, sha1, fromInt).value.texts.songName;
    if Truthy(i.songName) {
      assert |song| == |i.songName.s| > 0;
    } else {
      assert |song| == |DefaultSongName|;
    }
    assert Truthy(j.songName);
  }
}
