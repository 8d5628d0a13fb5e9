/**
 * Reading back what `WriteSSPM` wrote. Each reader stage is shown to
 * recover the section the writer put at the position the reader has
 * reached, and the stages are then chained over the whole file.
 */
module RoundTrip {
  import opened Wrappers
  import opened Bytes
  import opened Stream
  import opened NoteModel
  import opened SspmState
  import R = ReadModel
  import W = WriteModel

  // ---------------------------------------------------------------------
  // Bytes found at a position

  /** `x` sits in `data` at position `p`. */
  predicate At(data: seq<byte>, p: nat, x: seq<byte>)
  {
    p + |x| <= |data| && data[p..p + |x|] == x
  }

  /** Reading `|x|` bytes where `x` sits returns `x`. */
  lemma NextAt(data: seq<byte>, p: nat, x: seq<byte>)
    requires At(data, p, x)
    ensures Next(data, p, |x|) == (x, p + |x|)
  {
  }

  /** `NextAt` with the width and the end position named. */
  lemma ReadAt(data: seq<byte>, p: nat, w: nat, r: nat, x: seq<byte>)
    requires At(data, p, x) && |x| == w && r == p + w
    ensures Next(data, p, w) == (x, r)
  {
  }

  /** Both halves of a concatenation sit one after the other. */
  lemma AtSplit(data: seq<byte>, p: nat, x: seq<byte>, y: seq<byte>)
    requires At(data, p, x + y)
    ensures At(data, p, x) && At(data, p + |x|, y)
  {
    assert data[p..p + |x|] == (x + y)[..|x|];
    assert data[p + |x|..p + |x| + |y|] == (x + y)[|x|..];
  }

  /** `AtSplit` with the position of the second half named. */
  lemma Split(data: seq<byte>, p: nat, x: seq<byte>, y: seq<byte>, q: nat)
    requires At(data, p, x + y) && q == p + |x|
    ensures At(data, p, x) && At(data, q, y)
  {
    AtSplit(data, p, x, y);
  }

  /** The first part of a `Concat` sits first, and the rest after it. */
  lemma ConcatAt(data: seq<byte>, p: nat, parts: seq<seq<byte>>)
    requires parts != [] && At(data, p, Concat(parts))
    ensures At(data, p, parts[0]) && At(data, p + |parts[0]|, Concat(parts[1..]))
  {
    AtSplit(data, p, parts[0], Concat(parts[1..]));
  }

  /** A whole byte string sits at position 0 of itself. */
  lemma AtWhole(data: seq<byte>)
    ensures At(data, 0, data)
  {
    assert data[0..|data|] == data;
  }

  // ---------------------------------------------------------------------
  // Fixed-width stages

  /** The header the writer emits reads back as signature "SS+m", version 2 and four reserved zeros. */
  lemma HeaderOf(data: seq<byte>, p: nat)
    requires At(data, p, WrittenHeader)
    ensures R.HeaderStage(data, p) == (HeaderDict(HeaderSignature, 2, [0, 0, 0, 0]), p + 10)
  {
    assert WrittenHeader == HeaderSignature + [0x02, 0x00] + [0, 0, 0, 0];
    AtSplit(data, p, HeaderSignature + [0x02, 0x00], [0, 0, 0, 0]);
    AtSplit(data, p, HeaderSignature, [0x02, 0x00]);
    NextAt(data, p, HeaderSignature);
    NextAt(data, p + 4, [0x02, 0x00]);
    NextAt(data, p + 6, [0, 0, 0, 0]);
  }

  /** The metadata fields as the writer lays them out. */
  function WrittenMeta(hash: seq<byte>, lastMs: seq<byte>, count: seq<byte>, difficulty: seq<byte>,
                       audio: Option<seq<byte>>, cover: Option<seq<byte>>, modFlag: seq<byte>): R.Meta
  {
    R.Meta(hash, lastMs, count, count, difficulty, [0x00, 0x00], W.Flag(audio.Some?), W.Flag(cover.Some?), modFlag)
  }

  /** Where each field of the metadata block sits. */
  lemma MetadataFieldsAt(data: seq<byte>, q: nat, lastMs: seq<byte>, count: seq<byte>, difficulty: seq<byte>,
                         audio: Option<seq<byte>>, cover: Option<seq<byte>>, modFlag: seq<byte>)
    requires |lastMs| == 4 && |count| == 4 && |difficulty| == 1 && |modFlag| == 1
    requires At(data, q, W.MetadataBytes(lastMs, count, difficulty, audio, cover, modFlag))
    ensures At(data, q, lastMs) && At(data, q + 4, count) && At(data, q + 8, count)
    ensures At(data, q + 12, difficulty) && At(data, q + 13, [0x00, 0x00])
    ensures At(data, q + 15, W.Flag(audio.Some?)) && At(data, q + 16, W.Flag(cover.Some?)) && At(data, q + 17, modFlag)
  {
    var fa, fc := W.Flag(audio.Some?), W.Flag(cover.Some?);
    assert |fa| == 1 && |fc| == 1;
    var m1 := lastMs + count;
    var m2 := m1 + count;
    var m3 := m2 + difficulty;
    var m4 := m3 + [0x00, 0x00];
    var m5 := m4 + fa;
    var m6 := m5 + fc;
    assert W.MetadataBytes(lastMs, count, difficulty, audio, cover, modFlag) == m6 + modFlag;
    assert |m1| == 8 && |m2| == 12 && |m3| == 13 && |m4| == 15 && |m5| == 16 && |m6| == 17;
    Split(data, q, m6, modFlag, q + 17);
    Split(data, q, m5, fc, q + 16);
    Split(data, q, m4, fa, q + 15);
    Split(data, q, m3, [0x00, 0x00], q + 13);
    Split(data, q, m2, difficulty, q + 12);
    Split(data, q, m1, count, q + 8);
    Split(data, q, lastMs, count, q + 4);
  }

  /** The hash and the metadata block read back field by field. */
  lemma MetaOf(data: seq<byte>, p: nat, hash: seq<byte>, lastMs: seq<byte>, count: seq<byte>, difficulty: seq<byte>,
               audio: Option<seq<byte>>, cover: Option<seq<byte>>, modFlag: seq<byte>)
    requires |hash| == 20 && |lastMs| == 4 && |count| == 4 && |difficulty| == 1 && |modFlag| == 1
    requires At(data, p, hash) && At(data, p + 20, W.MetadataBytes(lastMs, count, difficulty, audio, cover, modFlag))
    ensures R.MetaStage(data, p) == (WrittenMeta(hash, lastMs, count, difficulty, audio, cover, modFlag), p + 38)
  {
    var q := p + 20;
    MetadataFieldsAt(data, q, lastMs, count, difficulty, audio, cover, modFlag);
    ReadAt(data, p, 20, q, hash);
    ReadAt(data, q, 4, q + 4, lastMs);
    ReadAt(data, q + 4, 4, q + 8, count);
    ReadAt(data, q + 8, 4, q + 12, count);
    ReadAt(data, q + 12, 1, q + 13, difficulty);
    ReadAt(data, q + 13, 2, q + 15, [0x00, 0x00]);
    ReadAt(data, q + 15, 1, q + 16, W.Flag(audio.Some?));
    ReadAt(data, q + 16, 1, q + 17, W.Flag(cover.Some?));
    ReadAt(data, q + 17, 1, q + 18, modFlag);
  }

  /** Every pointer-table field is 8 bytes wide. */
  predicate EightByteFields(t: Pointers)
  {
    t.customDataOffset.PyBytes? && |t.customDataOffset.b| == 8 && |t.customDataLength| == 8
    && |t.audioOffset| == 8 && |t.audioLength| == 8 && |t.coverOffset| == 8 && |t.coverLength| == 8
    && |t.markerDefinitionsOffset| == 8 && |t.markerDefinitionsLength| == 8
    && |t.markerOffset| == 8 && |t.markerLength| == 8
  }

  /** The pointer table reads back as the ten fields written. */
  lemma PointersOf(data: seq<byte>, p: nat, t: Pointers)
    requires EightByteFields(t) && At(data, p, W.PointerBytes(t))
    ensures R.PointerStage(data, p) == (t, p + 80)
  {
    var a0, a1, a2, a3, a4 := t.customDataOffset.b, t.customDataLength, t.audioOffset, t.audioLength, t.coverOffset;
    var a5, a6, a7, a8, a9 := t.coverLength, t.markerDefinitionsOffset, t.markerDefinitionsLength, t.markerOffset, t.markerLength;
    AtSplit(data, p, a0 + a1 + a2 + a3 + a4 + a5 + a6 + a7 + a8, a9);
    AtSplit(data, p, a0 + a1 + a2 + a3 + a4 + a5 + a6 + a7, a8);
    AtSplit(data, p, a0 + a1 + a2 + a3 + a4 + a5 + a6, a7);
    AtSplit(data, p, a0 + a1 + a2 + a3 + a4 + a5, a6);
    AtSplit(data, p, a0 + a1 + a2 + a3 + a4, a5);
    AtSplit(data, p, a0 + a1 + a2 + a3, a4);
    AtSplit(data, p, a0 + a1 + a2, a3);
    AtSplit(data, p, a0 + a1, a2);
    AtSplit(data, p, a0, a1);
    NextAt(data, p, a0);
    NextAt(data, p + 8, a1);
    NextAt(data, p + 16, a2);
    NextAt(data, p + 24, a3);
    NextAt(data, p + 32, a4);
    NextAt(data, p + 40, a5);
    NextAt(data, p + 48, a6);
    NextAt(data, p + 56, a7);
    NextAt(data, p + 64, a8);
    NextAt(data, p + 72, a9);
  }

  // ---------------------------------------------------------------------
  // Strings

  /** The two parts of a prefixed field, read one after the other. */
  lemma PrefixedAt(data: seq<byte>, p: nat, q: nat, r: nat, n: seq<byte>, e: seq<byte>)
    requires |n| == 2 && q == p + 2 && r == q + |e|
    requires At(data, p, n + e)
    ensures Next(data, p, 2) == (n, q)
    ensures Next(data, q, |e|) == (e, r)
  {
    Split(data, p, n, e, q);
    NextAt(data, p, n);
    NextAt(data, q, e);
  }

  /** What `VarString` returns once its two reads are known. */
  lemma VarStringFrom(data: seq<byte>, p: nat, q: nat, r: nat, n: seq<byte>, e: seq<byte>, s: string)
    requires AsciiDecode(e) == Some(s) && |e| < 32768
    requires Next(data, p, 2) == (n, q) && FromLe(n) == |e|
    requires Next(data, q, |e|) == (e, r)
    ensures R.VarString(data, p, false, true) == (Success(s), r)
  {
  }

  /**
   * A length-prefixed ASCII string reads back as the text, when its
   * length fits an int16; `r` is where it ends.
   */
  lemma VarStringOf(data: seq<byte>, p: nat, r: nat, e: seq<byte>, s: string)
    requires AsciiDecode(e) == Some(s) && |e| < 32768 && r == p + 2 + |e|
    requires At(data, p, W.LengthPrefixed(e))
    ensures R.VarString(data, p, false, true) == (Success(s), r)
  {
    var n := Le(|e|, 2);
    var q := p + 2;
    FromLeLe(|e|, 2);
    PrefixedAt(data, p, q, r, n, e);
    VarStringFrom(data, p, q, r, n, e, s);
  }

  /** Every text is short enough for the reader's int16 length. */
  predicate ShortTexts(ms: seq<string>)
  {
    forall i :: 0 <= i < |ms| ==> |ms[i]| < 32768
  }

  /** The mapper list reads back mapper by mapper; `r` is where it ends. */
  lemma {:induction false} MappersOf(data: seq<byte>, p: nat, r: nat, ms: seq<string>)
    requires W.MappersSection(ms).Success? && ShortTexts(ms)
    requires r == p + |W.MappersSection(ms).value|
    requires At(data, p, W.MappersSection(ms).value)
    ensures R.Repeat(R.MapperStep(data), p, |ms|) == (Success(ms), r)
  {
    if ms == [] {
      assert r == p;
    } else {
      var init := W.MappersSection(Init(ms)).value;
      var last := Last(ms);
      var e := AsciiEncode(last).value;
      var field := W.LengthPrefixed(e);
      assert W.MappersSection(ms).value == init + field;
      var q := p + |init|;
      Split(data, p, init, field, q);
      assert ShortTexts(Init(ms)) by {
        assert forall i :: 0 <= i < |Init(ms)| ==> Init(ms)[i] == ms[i];
      }
      MappersOf(data, p, q, Init(ms));
      AsciiRoundTrip(last);
      VarStringOf(data, q, r, e, last);
      var step := R.MapperStep(data);
      var k := |Init(ms)|;
      assert step(q) == (Success(last), r);
      R.RepeatStep(step, p, k, Init(ms), q, (Success(last), r));
      assert k + 1 == |ms|;
      assert Init(ms) + [last] == ms;
    }
  }

  /** The strings section the writer emits, from the encoded texts. */
  function StringsBytes(id: seq<byte>, name: seq<byte>, song: seq<byte>, ms: seq<string>): seq<byte>
    requires |id| < 65536 && |name| < 65536 && |song| < 65536 && |ms| < 65536
    requires W.MappersSection(ms).Success?
  {
    W.LengthPrefixed(id) + W.LengthPrefixed(name) + W.LengthPrefixed(song) + Le(|ms|, 2) + W.MappersSection(ms).value
  }

  /** `TextsStage` from what each of its reads returns. */
  lemma TextsStageOf(data: seq<byte>, p: nat, p1: nat, p2: nat, p3: nat, p4: nat, r: nat,
                     id: string, name: string, song: string, count: seq<byte>, ms: seq<string>)
    requires R.VarString(data, p, false, true) == (Success(id), p1)
    requires R.VarString(data, p1, false, true) == (Success(name), p2)
    requires R.VarString(data, p2, false, true) == (Success(song), p3)
    requires Next(data, p3, 2) == (count, p4) && FromLe(count) == |ms|
    requires R.Repeat(R.MapperStep(data), p4, |ms|) == (Success(ms), r)
    ensures R.TextsStage(data, p) == (Success(R.Texts(R.Sanitize(R.RemoveCommas(id)), name, song, ms)), r)
  {
  }

  /** The strings section reads back as the map ID without commas and sanitised, the names and the mappers. */
  lemma TextsOf(data: seq<byte>, p: nat, r: nat, idBytes: seq<byte>, nameBytes: seq<byte>, songBytes: seq<byte>,
                id: string, name: string, song: string, ms: seq<string>)
    requires AsciiDecode(idBytes) == Some(id) && AsciiDecode(nameBytes) == Some(name) && AsciiDecode(songBytes) == Some(song)
    requires |idBytes| < 32768 && |nameBytes| < 32768 && |songBytes| < 32768
    requires |ms| < 65536 && W.MappersSection(ms).Success? && ShortTexts(ms)
    requires r == p + |StringsBytes(idBytes, nameBytes, songBytes, ms)|
    requires At(data, p, StringsBytes(idBytes, nameBytes, songBytes, ms))
    ensures R.TextsStage(data, p) == (Success(R.Texts(R.Sanitize(R.RemoveCommas(id)), name, song, ms)), r)
  {
    var a := W.LengthPrefixed(idBytes);
    var b := W.LengthPrefixed(nameBytes);
    var c := W.LengthPrefixed(songBytes);
    var n := Le(|ms|, 2);
    var m := W.MappersSection(ms).value;
    var p1, p2, p3 := p + |a|, p + |a| + |b|, p + |a| + |b| + |c|;
    var p4 := p3 + 2;
    Split(data, p, a + b + c + n, m, p4);
    Split(data, p, a + b + c, n, p3);
    Split(data, p, a + b, c, p2);
    Split(data, p, a, b, p1);
    VarStringOf(data, p, p1, idBytes, id);
    VarStringOf(data, p1, p2, nameBytes, name);
    VarStringOf(data, p2, p3, songBytes, song);
    ReadAt(data, p3, 2, p4, n);
    FromLeLe(|ms|, 2);
    MappersOf(data, p4, r, ms);
    TextsStageOf(data, p, p1, p2, p3, p4, r, id, name, song, n, ms);
  }

  // ---------------------------------------------------------------------
  // Custom data, audio and cover

  /** The custom-data stage seeks to the audio pointer the writer recorded. */
  lemma CustomOf(data: seq<byte>, p: nat, at: nat)
    requires at < U64Limit / 2
    ensures R.CustomStage(data, p, U64(at)) == (None, at)
  {
    U64LimitIsPow();
    FromLeLe(at, 8);
  }

  /** The bytes an optional section occupies in the file. */
  function Payload(a: Option<seq<byte>>): seq<byte> {
    if a.Some? then a.value else []
  }

  /** The length field the pointer table records for an optional section. */
  function LengthField(a: Option<seq<byte>>): (r: seq<byte>)
    requires a.Some? ==> |a.value| < U64Limit
  {
    if a.Some? then U64(|a.value|) else ZeroLength
  }

  /** An optional section reads back as written: its bytes when present, `None` when absent. */
  lemma SectionOf(data: seq<byte>, p: nat, r: nat, a: Option<seq<byte>>)
    requires a.Some? ==> |a.value| < U64Limit / 2
    requires r == p + |Payload(a)| && At(data, p, Payload(a))
    ensures R.Section(data, p, W.Flag(a.Some?), LengthField(a)) == (Success(a), r)
  {
    if a.Some? {
      U64LimitIsPow();
      FromLeLe(|a.value|, 8);
      ReadAt(data, p, |a.value|, r, a.value);
    }
  }

  // ---------------------------------------------------------------------
  // Marker definitions

  /** The definitions section the writer emits has one definition, named "ssp_note". */
  lemma DefinitionsOf(data: seq<byte>, p: nat, r: nat)
    requires At(data, p, MarkerDefinitions) && r == p + 14
    ensures R.DefinitionsStage(data, p) == (Success(true), r)
  {
    MarkerDefinitionsSpellName();
    var e := MarkerDefinitions[3..11];
    AsciiRoundTrip(NoteDefinitionName);
    var n: seq<byte> := [0x08, 0x00];
    assert MarkerDefinitions == [0x01] + (n + e) + [0x01] + [0x07] + [0x00];
    var p1, p2, p3, p4 := p + 1, p + 11, p + 12, p + 13;
    Split(data, p, [0x01] + (n + e) + [0x01] + [0x07], [0x00], p4);
    Split(data, p, [0x01] + (n + e) + [0x01], [0x07], p3);
    Split(data, p, [0x01] + (n + e), [0x01], p2);
    Split(data, p, [0x01], n + e, p1);
    ReadAt(data, p, 1, p1, [0x01]);
    assert FromLe(n) == 8;
    var q := p + 3;
    PrefixedAt(data, p1, q, p2, n, e);
    VarStringFrom(data, p1, q, p2, n, e, NoteDefinitionName);
    ReadAt(data, p2, 1, p3, [0x01]);
    assert data[p3] == 0x07 && data[p4] == 0x00 by {
      assert data[p3..p3 + 1] == [0x07] && data[p4..p4 + 1] == [0x00];
    }
    assert R.SkipToZero(data, p4) == r;
    assert R.SkipToZero(data, p3) == r;
    var step := R.DefinitionStep(data);
    assert step(p1) == (Success(true), r);
    R.RepeatStep(step, p1, 0, [], p1, (Success(true), r));
    assert [] + [true] == [true];
  }

  // ---------------------------------------------------------------------
  // Markers

  /** A note the writer stores as a grid record whose coordinates fit one byte, at a time that fits 4 bytes. */
  predicate GridNote(n: Note) {
    n.x.Grid? && n.y.Grid? && 0 <= n.x.n < 256 && 0 <= n.y.n < 256 && 0 <= n.ms < Pow256(4)
  }

  /** The decoded records of grid notes: each note, flagged as not a float record. */
  function GridRecords(ns: seq<Note>): (r: seq<(Note, bool)>)
    ensures |r| == |ns|
  {
    seq(|ns|, i requires 0 <= i < |ns| => (ns[i], false))
  }

  /** The records of a list are those of all but its last note, then the last one's. */
  lemma GridRecordsAppend(ns: seq<Note>)
    requires ns != []
    ensures GridRecords(Init(ns)) + [(Last(ns), false)] == GridRecords(ns)
  {
    var a, b := GridRecords(Init(ns)) + [(Last(ns), false)], GridRecords(ns);
    assert |a| == |b|;
    forall i | 0 <= i < |a|
      ensures a[i] == b[i]
    {
      if i < |ns| - 1 {
        assert a[i] == (Init(ns)[i], false);
      }
    }
  }

  /** The records of grid notes give back the notes, and no float record. */
  lemma GridRecordsRead(ns: seq<Note>)
    ensures R.RecordNotes(GridRecords(ns)) == ns && !R.AnyFloat(GridRecords(ns))
  {
  }

  /** A grid record: time, type 0, identifier 0, one byte per coordinate. */
  lemma GridRecordAt(data: seq<byte>, p: nat, r: nat, ms: seq<byte>, x: byte, y: byte, snap: F32 -> Option<int>)
    requires |ms| == 4 && r == p + 8
    requires At(data, p, ms + [0x00, 0x00] + [x] + [y])
    ensures R.DecodeMarker(data, p, snap) == (Success((Note(Grid(x), Grid(y), FromLe(ms)), false)), r)
  {
    var p1, p2, p3, p4 := p + 4, p + 5, p + 6, p + 7;
    Split(data, p, ms + [0x00, 0x00] + [x], [y], p4);
    Split(data, p, ms + [0x00, 0x00], [x], p3);
    Split(data, p, ms, [0x00, 0x00], p1);
    Split(data, p1, [0x00], [0x00], p2);
    ReadAt(data, p, 4, p1, ms);
    ReadAt(data, p1, 1, p2, [0x00]);
    ReadAt(data, p2, 1, p3, [0x00]);
    ReadAt(data, p3, 1, p4, [x]);
    ReadAt(data, p4, 1, r, [y]);
    assert FromLe([0x00]) == 0 && FromLe([x]) == x && FromLe([y]) == y;
  }

  /** The record the writer emits for a grid note, with no export offset. */
  lemma GridRecordOf(n: Note, fromInt: int -> F32)
    requires GridNote(n)
    ensures W.EncodeMarker(n, 0, fromInt) == Success(Le(n.ms, 4) + [0x00, 0x00] + [n.x.n] + [n.y.n])
  {
    FromLeLe(n.ms, 4);
    assert Le(n.x.n, 2)[..1] == [n.x.n];
    assert Le(n.y.n, 2)[..1] == [n.y.n];
  }

  /** The marker records of grid notes read back one by one, in file order; `r` is where they end. */
  lemma {:induction false} MarkersOf(data: seq<byte>, p: nat, r: nat, ns: seq<Note>, fromInt: int -> F32,
                                     snap: F32 -> Option<int>)
    requires forall i :: 0 <= i < |ns| ==> GridNote(ns[i])
    requires W.EncodeMarkers(ns, 0, fromInt).Success?
    requires r == p + |W.EncodeMarkers(ns, 0, fromInt).value|
    requires At(data, p, W.EncodeMarkers(ns, 0, fromInt).value)
    ensures R.Repeat(R.MarkerStep(data, snap), p, |ns|) == (Success(GridRecords(ns)), r)
  {
    if ns == [] {
      assert r == p;
    } else {
      var init := W.EncodeMarkers(Init(ns), 0, fromInt).value;
      var last := Last(ns);
      assert GridNote(last) by {
        assert last == ns[|ns| - 1];
      }
      GridRecordOf(last, fromInt);
      var ms := Le(last.ms, 4);
      var rec := ms + [0x00, 0x00] + [last.x.n] + [last.y.n];
      assert W.EncodeMarkers(ns, 0, fromInt).value == init + rec;
      var q := p + |init|;
      Split(data, p, init, rec, q);
      assert forall i :: 0 <= i < |Init(ns)| ==> GridNote(Init(ns)[i]) by {
        assert forall i :: 0 <= i < |Init(ns)| ==> Init(ns)[i] == ns[i];
      }
      MarkersOf(data, p, q, Init(ns), fromInt, snap);
      FromLeLe(last.ms, 4);
      GridRecordAt(data, q, r, ms, last.x.n, last.y.n, snap);
      var step := R.MarkerStep(data, snap);
      var k := |Init(ns)|;
      assert step(q) == (Success((last, false)), r);
      R.RepeatStep(step, p, k, GridRecords(Init(ns)), q, (Success((last, false)), r));
      assert k + 1 == |ns|;
      GridRecordsAppend(ns);
    }
  }

  // ---------------------------------------------------------------------
  // Whole file

  /**
   * The sections after the strings read back: the seek lands on the audio,
   * the audio and the cover come back as written, and the notes come back
   * sorted by time with no float record.
   */
  lemma TrailingOf(data: seq<byte>, pos: nat, meta: R.Meta, pointers: Pointers, texts: R.Texts,
                   snap: F32 -> Option<int>, fromInt: int -> F32,
                   at: nat, c1: nat, c2: nat, c3: nat, r: nat,
                   audio: Option<seq<byte>>, cover: Option<seq<byte>>, ns: seq<Note>)
    requires at < U64Limit / 2 && pointers.audioOffset == U64(at)
    requires audio.Some? ==> |audio.value| < U64Limit / 2
    requires cover.Some? ==> |cover.value| < U64Limit / 2
    requires meta.containsAudio == W.Flag(audio.Some?) && pointers.audioLength == LengthField(audio)
    requires meta.containsCover == W.Flag(cover.Some?) && pointers.coverLength == LengthField(cover)
    requires c1 == at + |Payload(audio)| && At(data, at, Payload(audio))
    requires c2 == c1 + |Payload(cover)| && At(data, c1, Payload(cover))
    requires c3 == c2 + 14 && At(data, c2, MarkerDefinitions)
    requires FromLe(meta.noteCount) == |ns| && forall i :: 0 <= i < |ns| ==> GridNote(ns[i])
    requires W.EncodeMarkers(ns, 0, fromInt).Success?
    requires r == c3 + |W.EncodeMarkers(ns, 0, fromInt).value| && At(data, c3, W.EncodeMarkers(ns, 0, fromInt).value)
    ensures R.TrailingStages(data, pos, meta, pointers, texts, snap)
         == (Success(R.V2Read(meta, pointers, texts, audio, cover, true, Some((SortByMs(ns), false)))), r)
  {
    CustomOf(data, pos, at);
    SectionOf(data, at, c1, audio);
    SectionOf(data, c1, c2, cover);
    DefinitionsOf(data, c2, c3);
    MarkersOf(data, c3, r, ns, fromInt, snap);
    GridRecordsRead(ns);
  }

  /** The first part of a `Concat` sits first, and the others from `q` on. */
  lemma ConcatStep(data: seq<byte>, p: nat, q: nat, x: seq<byte>, rest: seq<seq<byte>>)
    requires At(data, p, Concat([x] + rest)) && q == p + |x|
    ensures At(data, p, x) && At(data, q, Concat(rest))
  {
    assert ([x] + rest)[1..] == rest;
    Split(data, p, x, Concat(rest), q);
  }

  /** Two parts at the front of a `Concat`, one after the other, and the others after them. */
  lemma TwoAt(data: seq<byte>, p: nat, a0: seq<byte>, a1: seq<byte>, rest: seq<seq<byte>>, p1: nat, p2: nat)
    requires At(data, p, Concat([a0, a1] + rest))
    requires p1 == p + |a0| && p2 == p1 + |a1|
    ensures At(data, p, a0) && At(data, p1, a1) && At(data, p2, Concat(rest))
  {
    assert [a0, a1] + rest == [a0] + ([a1] + rest);
    ConcatStep(data, p, p1, a0, [a1] + rest);
    ConcatStep(data, p1, p2, a1, rest);
  }

  /** Four parts at the front of a `Concat`, one after the other, and the others after them. */
  lemma FourAt(data: seq<byte>, p: nat, a0: seq<byte>, a1: seq<byte>, a2: seq<byte>, a3: seq<byte>,
               rest: seq<seq<byte>>, p1: nat, p2: nat, p3: nat, p4: nat)
    requires At(data, p, Concat([a0, a1, a2, a3] + rest))
    requires p1 == p + |a0| && p2 == p1 + |a1| && p3 == p2 + |a2| && p4 == p3 + |a3|
    ensures At(data, p, a0) && At(data, p1, a1) && At(data, p2, a2) && At(data, p3, a3)
    ensures At(data, p4, Concat(rest))
  {
    assert [a0, a1, a2, a3] + rest == [a0, a1] + ([a2, a3] + rest);
    TwoAt(data, p, a0, a1, [a2, a3] + rest, p1, p2);
    TwoAt(data, p2, a2, a3, rest, p3, p4);
  }

  /** Where each of the ten sections of a written file sits. */
  lemma PartsAt(data: seq<byte>, a0: seq<byte>, a1: seq<byte>, a2: seq<byte>, a3: seq<byte>, a4: seq<byte>,
                a5: seq<byte>, a6: seq<byte>, a7: seq<byte>, a8: seq<byte>, a9: seq<byte>,
                p1: nat, p2: nat, p3: nat, p4: nat, p5: nat, p6: nat, p7: nat, p8: nat, p9: nat)
    requires data == Concat([a0, a1, a2, a3, a4, a5, a6, a7, a8, a9])
    requires p1 == |a0| && p2 == p1 + |a1| && p3 == p2 + |a2| && p4 == p3 + |a3| && p5 == p4 + |a4|
    requires p6 == p5 + |a5| && p7 == p6 + |a6| && p8 == p7 + |a7| && p9 == p8 + |a8|
    ensures At(data, 0, a0) && At(data, p1, a1) && At(data, p2, a2) && At(data, p3, a3) && At(data, p4, a4)
    ensures At(data, p5, a5) && At(data, p6, a6) && At(data, p7, a7) && At(data, p8, a8) && At(data, p9, a9)
  {
    AtWhole(data);
    assert [a0, a1, a2, a3, a4, a5, a6, a7, a8, a9] == [a0, a1, a2, a3] + [a4, a5, a6, a7, a8, a9];
    FourAt(data, 0, a0, a1, a2, a3, [a4, a5, a6, a7, a8, a9], p1, p2, p3, p4);
    assert [a4, a5, a6, a7, a8, a9] == [a4, a5, a6, a7] + [a8, a9];
    FourAt(data, p4, a4, a5, a6, a7, [a8, a9], p5, p6, p7, p8);
    assert [a8, a9] == [a8, a9] + [];
    TwoAt(data, p8, a8, a9, [], p9, p9 + |a9|);
  }

  /** `ReadV2` from what each of its stages returns. */
  lemma ReadV2Of(data: seq<byte>, p: nat, q1: nat, q2: nat, q3: nat, r: nat, snap: F32 -> Option<int>,
                 meta: R.Meta, pt: Pointers, texts: R.Texts, v: R.V2Read)
    requires R.MetaStage(data, p) == (meta, q1) && R.PointerStage(data, q1) == (pt, q2)
    requires R.TextsStage(data, q2) == (Success(texts), q3)
    requires R.TrailingStages(data, q3, meta, pt, texts, snap) == (Success(v), r)
    ensures R.ReadV2(data, p, snap) == (Success(v), r)
  {
  }

  /** `ReadFile` from what each stage of a version 2 file returns. */
  lemma FileFromStages(data: seq<byte>, snap: F32 -> Option<int>, p5: nat, r: nat,
                       meta: R.Meta, pt: Pointers, texts: R.Texts, v: R.V2Read)
    requires R.HeaderStage(data, 0) == (HeaderDict(HeaderSignature, 2, [0, 0, 0, 0]), 10)
    requires R.MetaStage(data, 10) == (meta, 48) && R.PointerStage(data, 48) == (pt, 128)
    requires R.TextsStage(data, 128) == (Success(texts), p5)
    requires R.TrailingStages(data, p5, meta, pt, texts, snap) == (Success(v), r)
    ensures R.ReadFile(data, 0, snap) == (Success((HeaderDict(HeaderSignature, 2, [0, 0, 0, 0]), v)), r)
  {
    ReadV2Of(data, 10, 48, 128, p5, r, snap, meta, pt, texts, v);
    R.ReadFileSplit(data, 0, snap, HeaderDict(HeaderSignature, 2, [0, 0, 0, 0]), 10, Success(v), r);
  }

  /** The front of a written file: header, hash, metadata, pointer table and strings. */
  lemma FrontReads(data: seq<byte>, hash: seq<byte>, lastMs: seq<byte>, count: seq<byte>, difficulty: seq<byte>,
                   modFlag: seq<byte>, audio: Option<seq<byte>>, cover: Option<seq<byte>>,
                   pt: Pointers, idBytes: seq<byte>, nameBytes: seq<byte>, songBytes: seq<byte>,
                   id: string, name: string, song: string, mappers: seq<string>, p5: nat)
    requires |hash| == 20 && |lastMs| == 4 && |count| == 4 && |difficulty| == 1 && |modFlag| == 1
    requires AsciiDecode(idBytes) == Some(id) && AsciiDecode(nameBytes) == Some(name) && AsciiDecode(songBytes) == Some(song)
    requires |idBytes| < 32768 && |nameBytes| < 32768 && |songBytes| < 32768
    requires |mappers| < 65536 && W.MappersSection(mappers).Success? && ShortTexts(mappers)
    requires EightByteFields(pt)
    requires p5 == 128 + |StringsBytes(idBytes, nameBytes, songBytes, mappers)|
    requires At(data, 0, WrittenHeader) && At(data, 10, hash)
    requires At(data, 30, W.MetadataBytes(lastMs, count, difficulty, audio, cover, modFlag))
    requires At(data, 48, W.PointerBytes(pt)) && At(data, 128, StringsBytes(idBytes, nameBytes, songBytes, mappers))
    ensures R.HeaderStage(data, 0) == (HeaderDict(HeaderSignature, 2, [0, 0, 0, 0]), 10)
    ensures R.MetaStage(data, 10) == (WrittenMeta(hash, lastMs, count, difficulty, audio, cover, modFlag), 48)
    ensures R.PointerStage(data, 48) == (pt, 128)
    ensures R.TextsStage(data, 128) == (Success(R.Texts(R.Sanitize(R.RemoveCommas(id)), name, song, mappers)), p5)
  {
    HeaderOf(data, 0);
    MetaOf(data, 10, hash, lastMs, count, difficulty, audio, cover, modFlag);
    PointersOf(data, 48, pt);
    TextsOf(data, 128, p5, idBytes, nameBytes, songBytes, id, name, song, mappers);
  }

  /**
   * Texts as the writer stores them: bytes that decode to the texts, each
   * short enough for the reader's signed 2-byte length, and mappers that
   * encode.
   */
  predicate WrittenTexts(idBytes: seq<byte>, nameBytes: seq<byte>, songBytes: seq<byte>,
                         id: string, name: string, song: string, mappers: seq<string>)
  {
    && AsciiDecode(idBytes) == Some(id) && AsciiDecode(nameBytes) == Some(name) && AsciiDecode(songBytes) == Some(song)
    && |idBytes| < 32768 && |nameBytes| < 32768 && |songBytes| < 32768
    && |mappers| < 65536 && W.MappersSection(mappers).Success? && ShortTexts(mappers)
  }

  /**
   * A pointer table as the writer fills it: ten 8-byte fields, the audio
   * offset just past the strings (of `stringsSize` bytes) and the two
   * custom-data bytes, and the audio and cover lengths.
   */
  predicate WrittenPointers(pt: Pointers, stringsSize: nat, audio: Option<seq<byte>>, cover: Option<seq<byte>>)
  {
    && EightByteFields(pt)
    && (audio.Some? ==> |audio.value| < U64Limit / 2)
    && (cover.Some? ==> |cover.value| < U64Limit / 2)
    && 130 + stringsSize < U64Limit / 2
    && pt.audioOffset == U64(130 + stringsSize)
    && pt.audioLength == LengthField(audio) && pt.coverLength == LengthField(cover)
  }

  /** The ten sections of a written file, in file order. */
  predicate WrittenFile(data: seq<byte>, hash: seq<byte>, metadata: seq<byte>, pt: Pointers, strings: seq<byte>,
                        audio: Option<seq<byte>>, cover: Option<seq<byte>>, markers: seq<byte>)
  {
    && pt.customDataOffset.PyBytes?
    && data == Concat([WrittenHeader, hash, metadata, W.PointerBytes(pt), strings, [0x00, 0x00],
                       Payload(audio), Payload(cover), MarkerDefinitions, markers])
  }

  /** The reader stages up to the texts, on a file laid out as the writer lays it out; `p5` is where the texts end. */
  lemma FrontStages(data: seq<byte>, snap: F32 -> Option<int>, fromInt: int -> F32,
                    hash: seq<byte>, lastMs: seq<byte>, count: seq<byte>, difficulty: seq<byte>, modFlag: seq<byte>,
                    pt: Pointers, idBytes: seq<byte>, nameBytes: seq<byte>, songBytes: seq<byte>,
                    id: string, name: string, song: string, mappers: seq<string>,
                    audio: Option<seq<byte>>, cover: Option<seq<byte>>, ns: seq<Note>, p5: nat)
    requires |hash| == 20 && |lastMs| == 4 && |difficulty| == 1 && |modFlag| == 1
    requires |ns| < Pow256(4) && count == Le(|ns|, 4)
    requires WrittenTexts(idBytes, nameBytes, songBytes, id, name, song, mappers)
    requires WrittenPointers(pt, |StringsBytes(idBytes, nameBytes, songBytes, mappers)|, audio, cover)
    requires forall i :: 0 <= i < |ns| ==> GridNote(ns[i])
    requires W.EncodeMarkers(ns, 0, fromInt).Success?
    requires WrittenFile(data, hash, W.MetadataBytes(lastMs, count, difficulty, audio, cover, modFlag), pt,
                         StringsBytes(idBytes, nameBytes, songBytes, mappers), audio, cover,
                         W.EncodeMarkers(ns, 0, fromInt).value)
    requires p5 == 128 + |StringsBytes(idBytes, nameBytes, songBytes, mappers)|
    ensures R.HeaderStage(data, 0) == (HeaderDict(HeaderSignature, 2, [0, 0, 0, 0]), 10)
    ensures R.MetaStage(data, 10) == (WrittenMeta(hash, lastMs, count, difficulty, audio, cover, modFlag), 48)
    ensures R.PointerStage(data, 48) == (pt, 128)
    ensures R.TextsStage(data, 128) == (Success(R.Texts(R.Sanitize(R.RemoveCommas(id)), name, song, mappers)), p5)
  {
    var metadata := W.MetadataBytes(lastMs, count, difficulty, audio, cover, modFlag);
    var strings := StringsBytes(idBytes, nameBytes, songBytes, mappers);
    var markers := W.EncodeMarkers(ns, 0, fromInt).value;
    assert |W.Flag(audio.Some?)| == 1 && |W.Flag(cover.Some?)| == 1;
    assert |metadata| == 18;
    assert |W.PointerBytes(pt)| == 80;
    var p6 := 130 + |strings|;
    var p7 := p6 + |Payload(audio)|;
    var p8 := p7 + |Payload(cover)|;
    var p9 := p8 + |MarkerDefinitions|;
    MarkerDefinitionsSpellName();
    PartsAt(data, WrittenHeader, hash, metadata, W.PointerBytes(pt), strings, [0x00, 0x00],
            Payload(audio), Payload(cover), MarkerDefinitions, markers, 10, 30, 48, 128, p5, p6, p7, p8, p9);
    FrontReads(data, hash, lastMs, count, difficulty, modFlag, audio, cover, pt, idBytes, nameBytes, songBytes,
               id, name, song, mappers, p5);
  }

  /** Where the sections after the strings sit in a written file. */
  lemma BackLayout(data: seq<byte>, hash: seq<byte>, metadata: seq<byte>, pt: Pointers, strings: seq<byte>,
                   audio: Option<seq<byte>>, cover: Option<seq<byte>>, markers: seq<byte>,
                   p6: nat, p7: nat, p8: nat, p9: nat)
    requires WrittenFile(data, hash, metadata, pt, strings, audio, cover, markers)
    requires |hash| == 20 && |metadata| == 18 && EightByteFields(pt)
    requires p6 == 130 + |strings| && p7 == p6 + |Payload(audio)| && p8 == p7 + |Payload(cover)| && p9 == p8 + 14
    ensures At(data, p6, Payload(audio)) && At(data, p7, Payload(cover)) && At(data, p8, MarkerDefinitions)
    ensures At(data, p9, markers)
  {
    assert |W.PointerBytes(pt)| == 80;
    MarkerDefinitionsSpellName();
    PartsAt(data, WrittenHeader, hash, metadata, W.PointerBytes(pt), strings, [0x00, 0x00],
            Payload(audio), Payload(cover), MarkerDefinitions, markers, 10, 30, 48, 128, 128 + |strings|,
            p6, p7, p8, p9);
  }

  /** The reader stages after the texts, on a file laid out as the writer lays it out; `r` is where the file ends. */
  lemma BackStages(data: seq<byte>, snap: F32 -> Option<int>, fromInt: int -> F32, hash: seq<byte>,
                   metadata: seq<byte>, meta: R.Meta, pt: Pointers, texts: R.Texts, strings: seq<byte>,
                   audio: Option<seq<byte>>, cover: Option<seq<byte>>, ns: seq<Note>, p5: nat)
      returns (r: nat)
    requires |hash| == 20 && |metadata| == 18
    requires meta.containsAudio == W.Flag(audio.Some?) && meta.containsCover == W.Flag(cover.Some?)
    requires FromLe(meta.noteCount) == |ns|
    requires WrittenPointers(pt, |strings|, audio, cover)
    requires forall i :: 0 <= i < |ns| ==> GridNote(ns[i])
    requires W.EncodeMarkers(ns, 0, fromInt).Success?
    requires WrittenFile(data, hash, metadata, pt, strings, audio, cover, W.EncodeMarkers(ns, 0, fromInt).value)
    requires p5 == 128 + |strings|
    ensures R.TrailingStages(data, p5, meta, pt, texts, snap)
         == (Success(R.V2Read(meta, pt, texts, audio, cover, true, Some((SortByMs(ns), false)))), r)
  {
    var markers := W.EncodeMarkers(ns, 0, fromInt).value;
    var p6 := 130 + |strings|;
    var p7 := p6 + |Payload(audio)|;
    var p8 := p7 + |Payload(cover)|;
    var p9 := p8 + 14;
    r := p9 + |markers|;
    BackLayout(data, hash, metadata, pt, strings, audio, cover, markers, p6, p7, p8, p9);
    TrailingOf(data, p5, meta, pt, texts, snap, fromInt, p6, p7, p8, p9, r, audio, cover, ns);
  }

  /** What the writer lays down, in the terms `FileReads` reads it back in. */
  predicate Layout(data: seq<byte>, fromInt: int -> F32,
                   hash: seq<byte>, lastMs: seq<byte>, count: seq<byte>, difficulty: seq<byte>, modFlag: seq<byte>,
                   pt: Pointers, idBytes: seq<byte>, nameBytes: seq<byte>, songBytes: seq<byte>,
                   id: string, name: string, song: string, mappers: seq<string>,
                   audio: Option<seq<byte>>, cover: Option<seq<byte>>, ns: seq<Note>)
  {
    && |hash| == 20 && |lastMs| == 4 && |difficulty| == 1 && |modFlag| == 1
    && |ns| < Pow256(4) && count == Le(|ns|, 4)
    && WrittenTexts(idBytes, nameBytes, songBytes, id, name, song, mappers)
    && WrittenPointers(pt, |StringsBytes(idBytes, nameBytes, songBytes, mappers)|, audio, cover)
    && (forall i :: 0 <= i < |ns| ==> GridNote(ns[i]))
    && W.EncodeMarkers(ns, 0, fromInt).Success?
    && WrittenFile(data, hash, W.MetadataBytes(lastMs, count, difficulty, audio, cover, modFlag), pt,
                   StringsBytes(idBytes, nameBytes, songBytes, mappers), audio, cover,
                   W.EncodeMarkers(ns, 0, fromInt).value)
  }

  /** `Layout` from its parts, with the strings and markers sections named. */
  lemma LayoutIntro(data: seq<byte>, fromInt: int -> F32,
                    hash: seq<byte>, lastMs: seq<byte>, count: seq<byte>, difficulty: seq<byte>, modFlag: seq<byte>,
                    pt: Pointers, idBytes: seq<byte>, nameBytes: seq<byte>, songBytes: seq<byte>,
                    id: string, name: string, song: string, mappers: seq<string>,
                    audio: Option<seq<byte>>, cover: Option<seq<byte>>, ns: seq<Note>,
                    strings: seq<byte>, markers: seq<byte>)
    requires |hash| == 20 && |lastMs| == 4 && |difficulty| == 1 && |modFlag| == 1
    requires |ns| < Pow256(4) && count == Le(|ns|, 4)
    requires WrittenTexts(idBytes, nameBytes, songBytes, id, name, song, mappers)
    requires strings == StringsBytes(idBytes, nameBytes, songBytes, mappers)
    requires WrittenPointers(pt, |strings|, audio, cover)
    requires forall i :: 0 <= i < |ns| ==> GridNote(ns[i])
    requires W.EncodeMarkers(ns, 0, fromInt) == Success(markers)
    requires WrittenFile(data, hash, W.MetadataBytes(lastMs, count, difficulty, audio, cover, modFlag), pt,
                         strings, audio, cover, markers)
    ensures Layout(data, fromInt, hash, lastMs, count, difficulty, modFlag, pt, idBytes, nameBytes, songBytes,
                   id, name, song, mappers, audio, cover, ns)
  {
  }

  /**
   * A file laid out as the writer lays it out reads back completely: the
   * header as version 2, the metadata and pointer table as written, the
   * texts, the audio and the cover as written, and the notes sorted by time.
   */
  lemma FileReads(data: seq<byte>, snap: F32 -> Option<int>, fromInt: int -> F32,
                  hash: seq<byte>, lastMs: seq<byte>, count: seq<byte>, difficulty: seq<byte>, modFlag: seq<byte>,
                  pt: Pointers, idBytes: seq<byte>, nameBytes: seq<byte>, songBytes: seq<byte>,
                  id: string, name: string, song: string, mappers: seq<string>,
                  audio: Option<seq<byte>>, cover: Option<seq<byte>>, ns: seq<Note>)
    requires Layout(data, fromInt, hash, lastMs, count, difficulty, modFlag, pt, idBytes, nameBytes, songBytes,
                    id, name, song, mappers, audio, cover, ns)
    ensures R.ReadFile(data, 0, snap).0
         == Success((HeaderDict(HeaderSignature, 2, [0, 0, 0, 0]),
                     R.V2Read(WrittenMeta(hash, lastMs, count, difficulty, audio, cover, modFlag), pt,
                              R.Texts(R.Sanitize(R.RemoveCommas(id)), name, song, mappers),
                              audio, cover, true, Some((SortByMs(ns), false)))))
  {
    var p5 := 128 + |StringsBytes(idBytes, nameBytes, songBytes, mappers)|;
    FrontStages(data, snap, fromInt, hash, lastMs, count, difficulty, modFlag, pt, idBytes, nameBytes,
                songBytes, id, name, song, mappers, audio, cover, ns, p5);
    assert |W.Flag(audio.Some?)| == 1 && |W.Flag(cover.Some?)| == 1;
    FromLeLe(|ns|, 4);
    var r := BackStages(data, snap, fromInt, hash, W.MetadataBytes(lastMs, count, difficulty, audio, cover, modFlag),
                        WrittenMeta(hash, lastMs, count, difficulty, audio, cover, modFlag), pt,
                        R.Texts(R.Sanitize(R.RemoveCommas(id)), name, song, mappers),
                        StringsBytes(idBytes, nameBytes, songBytes, mappers), audio, cover, ns, p5);
    FileFromStages(data, snap, p5, r, WrittenMeta(hash, lastMs, count, difficulty, audio, cover, modFlag), pt,
                   R.Texts(R.Sanitize(R.RemoveCommas(id)), name, song, mappers),
                   R.V2Read(WrittenMeta(hash, lastMs, count, difficulty, audio, cover, modFlag), pt,
                            R.Texts(R.Sanitize(R.RemoveCommas(id)), name, song, mappers),
                            audio, cover, true, Some((SortByMs(ns), false))));
  }
}
