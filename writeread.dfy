/**
 * `ReadSSPM` on the bytes `WriteSSPM` produced: the file reads back with
 * the texts, the audio and cover sections and the notes (sorted by time)
 * that were written, and with the metadata and pointer table the write
 * stored.
 */
module WriteRead {
  import opened Wrappers
  import opened Bytes
  import opened NoteModel
  import opened SspmState
  import R = ReadModel
  import W = WriteModel
  import RT = RoundTrip

  /** Each mapper takes its 2-byte length and at most 32767 bytes when every mapper is short. */
  lemma {:induction false} MappersSectionBound(ms: seq<string>)
    requires W.MappersSection(ms).Success? && RT.ShortTexts(ms)
    ensures |W.MappersSection(ms).value| <= 32769 * |ms|
  {
    if ms != [] {
      assert forall k :: 0 <= k < |Init(ms)| ==> Init(ms)[k] == ms[k];
      MappersSectionBound(Init(ms));
      assert |Last(ms)| < 32768 by { assert Last(ms) == ms[|ms| - 1]; }
    }
  }

  /** Bytes a text encodes to decode back to that text, and have its length. */
  lemma EncodedDecodes(s: string, b: seq<byte>)
    requires AsciiEncode(s) == Some(b)
    ensures AsciiDecode(b) == Some(s) && |b| == |s|
  {
    AsciiRoundTrip(s);
  }

  /** The song name a write stores, as text: the default name when the field is falsy. */
  function SongText(v: PyValue): string
    requires !Truthy(v) || v.PyStr?
  {
    if !Truthy(v) then DefaultSongName else v.s
  }

  /** The stored song name bytes decode to the song name, or to the default name. */
  lemma SongNameDecodes(v: PyValue)
    requires W.SongNameBytes(v).Success?
    ensures !Truthy(v) || v.PyStr?
    ensures AsciiDecode(W.SongNameBytes(v).value) == Some(SongText(v))
    ensures |W.SongNameBytes(v).value| == |SongText(v)|
  {
    EncodedDecodes(SongText(v), W.SongNameBytes(v).value);
  }

  /**
   * The final write stage lays the file out as its ten sections, with the
   * audio pointer just past the strings and the custom-data bytes, and the
   * audio and cover lengths recorded as the reader expects them.
   */
  lemma AssembledParts(count: seq<byte>, difficulty: PyValue, audio: Option<seq<byte>>, cover: Option<seq<byte>>,
                       modFlag: seq<byte>, strings: seq<byte>, markers: seq<byte>, maxMs: int,
                       sha1: seq<byte> -> Digest, w: W.Written)
    requires W.Assemble(count, difficulty, audio, cover, modFlag, strings, markers, maxMs, sha1) == Success(w)
    requires |count| == 4 && difficulty.PyBytes? && |difficulty.b| == 1 && |modFlag| == 1
    requires audio.Some? ==> |audio.value| < U64Limit / 2
    requires cover.Some? ==> |cover.value| < U64Limit / 2
    requires 130 + |strings| < U64Limit / 2
    ensures |w.lastMs| == 4 && FromLe(w.lastMs) == maxMs && |w.difficulty| == 1 && difficulty == PyBytes(w.difficulty)
    ensures RT.WrittenPointers(w.pointers, |strings|, audio, cover)
    ensures RT.WrittenFile(w.file, sha1(MarkerDefinitions + markers),
                           W.MetadataBytes(w.lastMs, count, w.difficulty, audio, cover, modFlag),
                           w.pointers, strings, audio, cover, markers)
    ensures Some(w.pointers) == W.PointerTable(18, |strings|, audio, cover, |markers|)
  {
    W.AssembleOutcome(count, difficulty, audio, cover, modFlag, strings, markers, maxMs, sha1);
    var metadata := W.MetadataBytes(w.lastMs, count, w.difficulty, audio, cover, modFlag);
    assert |W.Flag(audio.Some?)| == 1 && |W.Flag(cover.Some?)| == 1;
    assert |metadata| == 18;
    var l := W.SectionLayout(|metadata|, |strings|, audio, cover);
    assert l.audio == 130 + |strings|;
    assert w.pointers == W.PointerValues(l, audio, cover, |markers|);
  }

  /** The offsets the writer's pointer table records, as numbers. */
  lemma PointerOffsets(stringsSize: nat, audio: Option<seq<byte>>, cover: Option<seq<byte>>, markersSize: nat, pt: Pointers)
    requires Some(pt) == W.PointerTable(18, stringsSize, audio, cover, markersSize)
    ensures var audioAt := 130 + stringsSize;
            var defsAt := audioAt + |RT.Payload(audio)| + |RT.Payload(cover)|;
            var shift := (if audio.None? then 8 else 0) + (if cover.None? then 8 else 0);
            && FromLe(pt.audioOffset) == audioAt
            && FromLe(pt.markerDefinitionsOffset) == defsAt + shift
            && FromLe(pt.markerOffset) == defsAt + 14 + shift
  {
    var l := W.SectionLayout(18, stringsSize, audio, cover);
    assert pt == W.PointerValues(l, audio, cover, markersSize);
    U64LimitIsPow();
    FromLeLe(l.audio, 8);
    FromLeLe(l.definitions, 8);
    FromLeLe(l.markers, 8);
  }

  /** `PointersPastSections` for a file laid out in its ten sections, with the pointer table the writer computes. */
  lemma PointerShift(data: seq<byte>, hash: seq<byte>, metadata: seq<byte>, pt: Pointers, strings: seq<byte>,
                     audio: Option<seq<byte>>, cover: Option<seq<byte>>, markers: seq<byte>)
    requires RT.WrittenFile(data, hash, metadata, pt, strings, audio, cover, markers)
    requires |hash| == 20 && |metadata| == 18 && RT.EightByteFields(pt)
    requires Some(pt) == W.PointerTable(18, |strings|, audio, cover, |markers|)
    ensures var audioAt := 130 + |strings|;
            var defsAt := audioAt + |RT.Payload(audio)| + |RT.Payload(cover)|;
            var shift := (if audio.None? then 8 else 0) + (if cover.None? then 8 else 0);
            && FromLe(pt.audioOffset) == audioAt && RT.At(data, audioAt, RT.Payload(audio))
            && RT.At(data, defsAt, MarkerDefinitions) && RT.At(data, defsAt + 14, markers)
            && FromLe(pt.markerDefinitionsOffset) == defsAt + shift
            && FromLe(pt.markerOffset) == defsAt + 14 + shift
  {
    PointerOffsets(|strings|, audio, cover, |markers|, pt);
    var p6 := 130 + |strings|;
    var p7 := p6 + |RT.Payload(audio)|;
    var p8 := p7 + |RT.Payload(cover)|;
    var p9 := p8 + 14;
    RT.BackLayout(data, hash, metadata, pt, strings, audio, cover, markers, p6, p7, p8, p9);
  }

  /**
   * Where the pointer table sends a reader of a written file. The audio
   * pointer is where the audio section starts; the definitions and marker
   * pointers lie 8 bytes past their sections for each absent audio or
   * cover section, because an absent section still advances the running
   * offset by the width of its zero length.
   */
  lemma PointersPastSections(count: seq<byte>, difficulty: PyValue, audio: Option<seq<byte>>, cover: Option<seq<byte>>,
                             modFlag: seq<byte>, strings: seq<byte>, markers: seq<byte>, maxMs: int,
                             sha1: seq<byte> -> Digest, w: W.Written)
    requires W.Assemble(count, difficulty, audio, cover, modFlag, strings, markers, maxMs, sha1) == Success(w)
    requires |count| == 4 && difficulty.PyBytes? && |difficulty.b| == 1 && |modFlag| == 1
    requires audio.Some? ==> |audio.value| < U64Limit / 2
    requires cover.Some? ==> |cover.value| < U64Limit / 2
    requires 130 + |strings| < U64Limit / 2
    ensures var audioAt := 130 + |strings|;
            var defsAt := audioAt + |RT.Payload(audio)| + |RT.Payload(cover)|;
            var shift := (if audio.None? then 8 else 0) + (if cover.None? then 8 else 0);
            && FromLe(w.pointers.audioOffset) == audioAt && RT.At(w.file, audioAt, RT.Payload(audio))
            && RT.At(w.file, defsAt, MarkerDefinitions) && RT.At(w.file, defsAt + 14, markers)
            && FromLe(w.pointers.markerDefinitionsOffset) == defsAt + shift
            && FromLe(w.pointers.markerOffset) == defsAt + 14 + shift
  {
    AssembledParts(count, difficulty, audio, cover, modFlag, strings, markers, maxMs, sha1, w);
    PointerShift(w.file, sha1(MarkerDefinitions + markers),
                 W.MetadataBytes(w.lastMs, count, w.difficulty, audio, cover, modFlag),
                 w.pointers, strings, audio, cover, markers);
  }

  /** What a successful first stage stores: the note count, and a one-byte difficulty when the lookup gives one. */
  lemma ConfigFacts(notes: Option<seq<Note>>, difficulty: PyValue, c: W.Config)
    requires W.ConfigStage(notes, difficulty) == Success(c)
    requires var d := W.DifficultyLookup(difficulty); d.PyInt? || (d.PyBytes? && |d.b| == 1)
    ensures notes.Some? && |notes.value| < Pow256(4) && c.count == Le(|notes.value|, 4) && |c.count| == 4
    ensures c.difficulty.PyBytes? && |c.difficulty.b| == 1
  {
    W.ConfigStageOutcome(notes, difficulty);
  }

  /** The texts `WriteSSPM` can write and `ReadSSPM` can read back: each shorter than 32768 characters. */
  predicate ShortFields(i: WriteInput, forceMapId: bool)
  {
    var idText := W.MapIdText(i.mappers, i.mapName, i.mapId, forceMapId);
    && (idText.Success? ==> |idText.value| < 32768)
    && (i.mapName.PyStr? ==> |i.mapName.s| < 32768)
    && (i.songName.PyStr? ==> |i.songName.s| < 32768)
    && (i.mappers.Some? ==> RT.ShortTexts(i.mappers.value))
  }

  /**
   * What a successful strings stage stores: bytes that decode to the map
   * ID, the map name and the song name, laid out as the reader expects.
   */
  lemma StringsFacts(i: WriteInput, forceMapId: bool, t: W.Texts, strings: seq<byte>)
    requires W.StringsStage(i.songName, i.mapName, i.mappers, i.mapId, forceMapId) == Success((t, strings))
    requires ShortFields(i, forceMapId)
    ensures W.MapIdText(i.mappers, i.mapName, i.mapId, forceMapId).Success?
    ensures i.mapName.PyStr? && (!Truthy(i.songName) || i.songName.PyStr?) && i.mappers.Some?
    ensures RT.WrittenTexts(t.mapId, t.mapName, t.songName, W.MapIdText(i.mappers, i.mapName, i.mapId, forceMapId).value,
                            i.mapName.s, SongText(i.songName), i.mappers.value)
    ensures strings == RT.StringsBytes(t.mapId, t.mapName, t.songName, i.mappers.value)
    ensures 130 + |strings| < U64Limit / 2
  {
    W.StringsStageOutcome(i.songName, i.mapName, i.mappers, i.mapId, forceMapId);
    EncodedDecodes(W.MapIdText(i.mappers, i.mapName, i.mapId, forceMapId).value, t.mapId);
    EncodedDecodes(i.mapName.s, t.mapName);
    SongNameDecodes(i.songName);
    MappersSectionBound(i.mappers.value);
  }

  /** Every value the hash parameter returns is a 20-byte digest. */
  lemma DigestLength(sha1: seq<byte> -> Digest, x: seq<byte>)
    ensures |sha1(x)| == 20
  {
  }

  /**
   * The stages of a successful write, with short texts and a one-byte
   * difficulty, lay out the file as the reader expects.
   */
  lemma StagesLayout(i: WriteInput, forceMapId: bool, sha1: seq<byte> -> Digest, fromInt: int -> F32,
                     c: W.Config, t: W.Texts, strings: seq<byte>, markers: seq<byte>, w: W.Written)
    requires W.ConfigStage(i.notes, i.difficulty) == Success(c)
    requires W.StringsStage(i.songName, i.mapName, i.mappers, i.mapId, forceMapId) == Success((t, strings))
    requires i.notes.Some? && W.EncodeMarkers(i.notes.value, 0, fromInt) == Success(markers)
    requires W.Assemble(c.count, c.difficulty, i.audioBytes, i.coverBytes, W.RequiresModFlag(i.requiresMod),
                        strings, markers, MaxMs(i.notes.value), sha1) == Success(w)
    requires ShortFields(i, forceMapId)
    requires forall k :: 0 <= k < |i.notes.value| ==> RT.GridNote(i.notes.value[k])
    requires var d := W.DifficultyLookup(i.difficulty); d.PyInt? || (d.PyBytes? && |d.b| == 1)
    requires i.audioBytes.Some? ==> |i.audioBytes.value| < U64Limit / 2
    requires i.coverBytes.Some? ==> |i.coverBytes.value| < U64Limit / 2
    ensures var idText := W.MapIdText(i.mappers, i.mapName, i.mapId, forceMapId);
            && |i.notes.value| < Pow256(4) && c.count == Le(|i.notes.value|, 4)
            && FromLe(w.lastMs) == MaxMs(i.notes.value)
            && c.difficulty == PyBytes(w.difficulty)
            && idText.Success? && i.mapName.PyStr? && (!Truthy(i.songName) || i.songName.PyStr?) && i.mappers.Some?
            && RT.Layout(w.file, fromInt, sha1(MarkerDefinitions + markers), w.lastMs, c.count,
                         w.difficulty, W.RequiresModFlag(i.requiresMod), w.pointers,
                         t.mapId, t.mapName, t.songName, idText.value, i.mapName.s,
                         SongText(i.songName), i.mappers.value, i.audioBytes, i.coverBytes, i.notes.value)
  {
    var modFlag := W.RequiresModFlag(i.requiresMod);
    ConfigFacts(i.notes, i.difficulty, c);
    StringsFacts(i, forceMapId, t, strings);
    AssembledParts(c.count, c.difficulty, i.audioBytes, i.coverBytes, modFlag, strings, markers, MaxMs(i.notes.value),
                   sha1, w);
    DigestLength(sha1, MarkerDefinitions + markers);
    RT.LayoutIntro(w.file, fromInt, sha1(MarkerDefinitions + markers), w.lastMs, c.count, w.difficulty, modFlag,
                   w.pointers, t.mapId, t.mapName, t.songName, W.MapIdText(i.mappers, i.mapName, i.mapId, forceMapId).value,
                   i.mapName.s, SongText(i.songName), i.mappers.value, i.audioBytes, i.coverBytes, i.notes.value,
                   strings, markers);
  }

  /**
   * A successful write with short texts and a one-byte difficulty lays out
   * its file as the reader expects; `markers` is the markers section it
   * wrote.
   */
  lemma WrittenLayout(i: WriteInput, forceMapId: bool, sha1: seq<byte> -> Digest, fromInt: int -> F32)
      returns (markers: seq<byte>)
    requires W.WriteFile(i, forceMapId, sha1, fromInt).Success?
    requires i.exportOffset == 0 && ShortFields(i, forceMapId)
    requires i.notes.Some? && forall k :: 0 <= k < |i.notes.value| ==> RT.GridNote(i.notes.value[k])
    requires var d := W.DifficultyLookup(i.difficulty); d.PyInt? || (d.PyBytes? && |d.b| == 1)
    requires i.audioBytes.Some? ==> |i.audioBytes.value| < U64Limit / 2
    requires i.coverBytes.Some? ==> |i.coverBytes.value| < U64Limit / 2
    ensures var s := W.WriteFile(i, forceMapId, sha1, fromInt).value;
            var idText := W.MapIdText(i.mappers, i.mapName, i.mapId, forceMapId);
            && |i.notes.value| < Pow256(4) && s.config.count == Le(|i.notes.value|, 4)
            && FromLe(s.written.lastMs) == MaxMs(i.notes.value)
            && s.config.difficulty == PyBytes(s.written.difficulty)
            && idText.Success? && i.mapName.PyStr? && (!Truthy(i.songName) || i.songName.PyStr?) && i.mappers.Some?
            && W.EncodeMarkers(i.notes.value, 0, fromInt) == Success(markers)
            && RT.Layout(s.written.file, fromInt, sha1(MarkerDefinitions + markers), s.written.lastMs, s.config.count,
                         s.written.difficulty, W.RequiresModFlag(i.requiresMod), s.written.pointers,
                         s.texts.mapId, s.texts.mapName, s.texts.songName, idText.value, i.mapName.s,
                         SongText(i.songName), i.mappers.value, i.audioBytes, i.coverBytes, i.notes.value)
  {
    var s := W.WriteFile(i, forceMapId, sha1, fromInt).value;
    W.WriteFileStages(i, forceMapId, sha1, fromInt);
    var st := W.StringsStage(i.songName, i.mapName, i.mappers, i.mapId, forceMapId).value;
    markers := W.EncodeMarkers(i.notes.value, i.exportOffset, fromInt).value;
    StagesLayout(i, forceMapId, sha1, fromInt, s.config, s.texts, st.1, markers, s.written);
  }

  /**
   * Reading back a successful write of grid notes with no export offset
   * and a one-byte difficulty gives version 2 and: the hash of the marker
   * definitions and markers, the stored `last_ms` (the latest note time),
   * note count, difficulty and flags, the stored pointer table, the map ID
   * as the reader cleans it, the map name, the song name (or the default),
   * the mappers, the audio and cover as given, and the notes sorted by time.
   */
  lemma WriteThenRead(i: WriteInput, forceMapId: bool, sha1: seq<byte> -> Digest, fromInt: int -> F32,
                      snap: F32 -> Option<int>)
    requires W.WriteFile(i, forceMapId, sha1, fromInt).Success?
    requires i.exportOffset == 0 && ShortFields(i, forceMapId)
    requires i.notes.Some? && forall k :: 0 <= k < |i.notes.value| ==> RT.GridNote(i.notes.value[k])
    requires var d := W.DifficultyLookup(i.difficulty); d.PyInt? || (d.PyBytes? && |d.b| == 1)
    requires i.audioBytes.Some? ==> |i.audioBytes.value| < U64Limit / 2
    requires i.coverBytes.Some? ==> |i.coverBytes.value| < U64Limit / 2
    ensures var s := W.WriteFile(i, forceMapId, sha1, fromInt).value;
            var idText := W.MapIdText(i.mappers, i.mapName, i.mapId, forceMapId);
            var markers := W.EncodeMarkers(i.notes.value, 0, fromInt);
            && FromLe(s.written.lastMs) == MaxMs(i.notes.value) && FromLe(s.config.count) == |i.notes.value|
            && s.config.difficulty == PyBytes(s.written.difficulty)
            && idText.Success? && i.mapName.PyStr? && (!Truthy(i.songName) || i.songName.PyStr?) && i.mappers.Some?
            && markers.Success?
            && R.ReadFile(s.written.file, 0, snap).0
               == Success((HeaderDict(HeaderSignature, 2, [0, 0, 0, 0]),
                           R.V2Read(RT.WrittenMeta(sha1(MarkerDefinitions + markers.value), s.written.lastMs,
                                                   s.config.count, s.written.difficulty, i.audioBytes, i.coverBytes,
                                                   W.RequiresModFlag(i.requiresMod)),
                                    s.written.pointers,
                                    R.Texts(R.Sanitize(R.RemoveCommas(idText.value)), i.mapName.s,
                                            SongText(i.songName), i.mappers.value),
                                    i.audioBytes, i.coverBytes, true, Some((SortByMs(i.notes.value), false)))))
  {
    var s := W.WriteFile(i, forceMapId, sha1, fromInt).value;
    var markers := WrittenLayout(i, forceMapId, sha1, fromInt);
    var ns := i.notes.value;
    RT.FileReads(s.written.file, snap, fromInt, sha1(MarkerDefinitions + markers), s.written.lastMs, s.config.count,
                 s.written.difficulty, W.RequiresModFlag(i.requiresMod), s.written.pointers,
                 s.texts.mapId, s.texts.mapName, s.texts.songName,
                 W.MapIdText(i.mappers, i.mapName, i.mapId, forceMapId).value, i.mapName.s, SongText(i.songName),
                 i.mappers.value, i.audioBytes, i.coverBytes, ns);
    FromLeLe(|ns|, 4);
  }
}
