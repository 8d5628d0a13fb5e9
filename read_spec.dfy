/**
 * What `SSPMParser.ReadSSPM` computes, as functions of the parser state
 * before the call, the file bytes and the read position. Each stage
 * returns the state as the source leaves it, the new position, and the
 * error if the source raises there.
 */
module ReadModel {
  import opened Wrappers
  import opened Bytes
  import opened Stream
  import opened NoteModel
  import opened SspmState

  // ---------------------------------------------------------------------
  // String readers

  /**
   * `_GetNextVariableString`: a 2-byte (1-byte when not V2) little-endian
   * length, converted to int16 (int32 with `fourbytes`), then that many
   * bytes decoded as ASCII.
   */
  function VarString(data: seq<byte>, pos: nat, fourbytes: bool, v2: bool): (r: (Result<string, ReadError>, nat))
    ensures r.1 >= pos
  {
    var (lb, p1) := Next(data, pos, if v2 then 2 else 1);
    var len := FromLe(lb);
    if !fourbytes && len >= 32768 then (Failure(StringTooLong), p1)
    else
      var (sb, p2) := Next(data, p1, len);
      match AsciiDecode(sb)
      case None => (Failure(NonAsciiText), p2)
      case Some(t) => (Success(t), p2)
  }

  /**
   * What `_GetNextVariableString` reads: it fails on a length of 32768 or
   * more unless `fourbytes` is set, and otherwise returns the text whose
   * ASCII bytes follow the length, ending right after them.
   */
  lemma VarStringOutcome(data: seq<byte>, pos: nat, fourbytes: bool, v2: bool)
    ensures var r := VarString(data, pos, fourbytes, v2);
            var lb := Take(data, pos, if v2 then 2 else 1);
            && (r.0 == Failure(StringTooLong) <==> !fourbytes && FromLe(lb) >= 32768)
            && (r.0.Success? ==> && AsciiEncode(r.0.value) == Some(Take(data, pos + |lb|, FromLe(lb)))
                                 && r.1 == pos + |lb| + |r.0.value|)
  {
    var r := VarString(data, pos, fourbytes, v2);
    var lb := Take(data, pos, if v2 then 2 else 1);
    if r.0.Success? {
      var sb := Take(data, pos + |lb|, FromLe(lb));
      AsciiDecodeSpec(sb);
      assert AsciiDecode(sb) == Some(r.0.value);
      assert AsciiEncode(r.0.value).value == sb;
    }
  }

  /** The index of the first newline byte at or after `pos`, if any. */
  function NewlineIndex(data: seq<byte>, pos: nat): (r: Option<nat>)
    ensures r.Some? ==> pos <= r.value < |data| && data[r.value] == 0x0a
    ensures r.Some? ==> forall j :: pos <= j < r.value ==> data[j] != 0x0a
    ensures r.None? ==> forall j :: pos <= j < |data| ==> data[j] != 0x0a
    decreases |data| - pos
  {
    if pos >= |data| then None
    else if data[pos] == 0x0a then Some(pos)
    else NewlineIndex(data, pos + 1)
  }

  /**
   * `_NewLineTerminatedString`: the bytes before the next newline, decoded
   * as ASCII; the newline is consumed. Without a newline the source loops
   * forever at the end of the data, which is `NoNewline` here.
   */
  function NewlineString(data: seq<byte>, pos: nat): (r: (Result<string, ReadError>, nat))
  {
    match NewlineIndex(data, pos)
    case None => (Failure(NoNewline), if pos < |data| then |data| else pos)
    case Some(j) =>
      match AsciiDecode(data[pos..j])
      case None => (Failure(NonAsciiText), j + 1)
      case Some(t) => (Success(t), j + 1)
  }

  /** `s.replace(",", "")`. */
  function RemoveCommas(s: string): (r: string)
    ensures forall i :: 0 <= i < |r| ==> r[i] != ','
    ensures |r| <= |s|
    ensures (forall i :: 0 <= i < |s| ==> s[i] != ',') ==> r == s
  {
    if s == [] then []
    else (if s[0] == ',' then [] else [s[0]]) + RemoveCommas(s[1..])
  }

  /** The map ID with every character of `INVALID_CHARS` replaced by '_'. */
  function Sanitize(s: string): (r: string)
    ensures |r| == |s|
    ensures forall i :: 0 <= i < |s| ==> r[i] == (if s[i] in InvalidChars then '_' else s[i])
  {
    seq(|s|, i requires 0 <= i < |s| => if s[i] in InvalidChars then '_' else s[i])
  }

  /**
   * What `_NewLineTerminatedString` reads: the text whose ASCII bytes run
   * up to the first newline, which it consumes; there is no string when no
   * newline follows.
   */
  lemma NewlineStringOutcome(data: seq<byte>, pos: nat)
    ensures var r := NewlineString(data, pos);
            && (r.0 == Failure(NoNewline) <==> forall j :: pos <= j < |data| ==> data[j] != 0x0a)
            && (r.0.Success? ==> && pos < r.1 <= |data| && data[r.1 - 1] == 0x0a
                                 && (forall j :: pos <= j < r.1 - 1 ==> data[j] != 0x0a)
                                 && AsciiEncode(r.0.value) == Some(data[pos..r.1 - 1]))
  {
    var r := NewlineString(data, pos);
    if r.0.Success? {
      var sb := data[pos..r.1 - 1];
      AsciiDecodeSpec(sb);
      assert AsciiEncode(r.0.value).value == sb;
    }
  }

  /**
   * The map ID the reader stores has no comma and no invalid character, so
   * cleaning it again changes nothing.
   */
  lemma MapIdStable(s: string)
    ensures var r := Sanitize(RemoveCommas(s));
            && (forall i :: 0 <= i < |r| ==> r[i] != ',' && r[i] !in InvalidChars)
            && Sanitize(RemoveCommas(r)) == r
  {
    var r := Sanitize(RemoveCommas(s));
    assert RemoveCommas(r) == r;
    assert Sanitize(r) == r;
  }

  // ---------------------------------------------------------------------
  // Header

  /** The header dictionary: signature, version (2 iff the next bytes are 02 00), reserve. */
  function HeaderStage(data: seq<byte>, pos: nat): (r: (HeaderField, nat))
    ensures r.0.HeaderDict? && r.0.signature == Take(data, pos, 4)
    ensures r.0.version == 2 <==> Take(data, pos + |r.0.signature|, 2) == [0x02, 0x00]
    ensures r.0.version == 2 || r.0.version == 1
    ensures pos + 10 <= |data| && r.0.version == 2 ==> r.1 == pos + 10 && r.0.reserve == data[pos + 6..pos + 10]
    ensures pos + 8 <= |data| && r.0.version == 1 ==> r.1 == pos + 8 && r.0.reserve == data[pos + 6..pos + 8]
  {
    var (sig, p1) := Next(data, pos, 4);
    var (ver, p2) := Next(data, p1, 2);
    var version := if ver == [0x02, 0x00] then 2 else 1;
    var (reserve, p3) := Next(data, p2, if version == 2 then 4 else 2);
    (HeaderDict(sig, version, reserve), p3)
  }

  // ---------------------------------------------------------------------
  // Version 2

  /** The fixed-width fields after the header, as read. */
  datatype Meta = Meta(
    hash: seq<byte>, lastMs: seq<byte>, noteCount: seq<byte>, markerCount: seq<byte>,
    difficulty: seq<byte>, mapRating: seq<byte>,
    containsAudio: seq<byte>, containsCover: seq<byte>, requiresMod: seq<byte>)

  /** The metadata: hash, last_ms, the two counts, difficulty, rating and three flags (38 bytes). */
  function MetaStage(data: seq<byte>, pos: nat): (r: (Meta, nat))
  {
    var (hash, p1) := Next(data, pos, 20);
    var (lastMs, p2) := Next(data, p1, 4);
    var (noteCount, p3) := Next(data, p2, 4);
    var (markerCount, p4) := Next(data, p3, 4);
    var (difficulty, p5) := Next(data, p4, 1);
    var (rating, p6) := Next(data, p5, 2);
    var (audioFlag, p7) := Next(data, p6, 1);
    var (coverFlag, p8) := Next(data, p7, 1);
    var (modFlag, p9) := Next(data, p8, 1);
    (Meta(hash, lastMs, noteCount, markerCount, difficulty, rating, audioFlag, coverFlag, modFlag), p9)
  }

  /** The pointer table: ten 8-byte fields, kept as bytes. */
  function PointerStage(data: seq<byte>, pos: nat): (r: (Pointers, nat))
  {
    var (customOffset, q1) := Next(data, pos, 8);
    var (customLength, q2) := Next(data, q1, 8);
    var (audioOffset, q3) := Next(data, q2, 8);
    var (audioLength, q4) := Next(data, q3, 8);
    var (coverOffset, q5) := Next(data, q4, 8);
    var (coverLength, q6) := Next(data, q5, 8);
    var (defsOffset, q7) := Next(data, q6, 8);
    var (defsLength, q8) := Next(data, q7, 8);
    var (markerOffset, q9) := Next(data, q8, 8);
    var (markerLength, q10) := Next(data, q9, 8);
    (Pointers(PyBytes(customOffset), customLength, audioOffset, audioLength, coverOffset, coverLength,
              defsOffset, defsLength, markerOffset, markerLength),
     q10)
  }

  /**
   * `count` reads by `step`, each from where the previous one stopped, as
   * a `for` loop does; the first read that fails ends the loop.
   */
  function Repeat<T>(step: nat -> (Result<T, ReadError>, nat), pos: nat, count: nat): (r: (Result<seq<T>, ReadError>, nat))
    ensures r.0.Success? ==> |r.0.value| == count
  {
    if count == 0 then (Success([]), pos)
    else
      var prev := Repeat(step, pos, count - 1);
      if prev.0.Failure? then prev
      else
        var m := step(prev.1);
        if m.0.Failure? then (Failure(m.0.error), m.1) else (Success(prev.0.value + [m.0.value]), m.1)
  }

  /** Once the first `k` reads fail, the loop fails the same way. */
  lemma {:induction false} RepeatStops<T>(step: nat -> (Result<T, ReadError>, nat), pos: nat, k: nat, count: nat)
    requires k <= count && Repeat(step, pos, k).0.Failure?
    ensures Repeat(step, pos, count) == Repeat(step, pos, k)
    decreases count - k
  {
    if k < count {
      RepeatStops(step, pos, k, count - 1);
    }
  }

  /** One more pass of the loop after `k` successful reads ending at `at`. */
  lemma RepeatStep<T>(step: nat -> (Result<T, ReadError>, nat), pos: nat, k: nat, acc: seq<T>, at: nat,
                      m: (Result<T, ReadError>, nat))
    requires Repeat(step, pos, k) == (Success(acc), at)
    requires step(at) == m
    ensures Repeat(step, pos, k + 1) == if m.0.Failure? then (Failure(m.0.error), m.1) else (Success(acc + [m.0.value]), m.1)
  {
  }

  /** A loop that reads at least once and succeeds starts with what the first read gave. */
  lemma {:induction false} RepeatFirst<T>(step: nat -> (Result<T, ReadError>, nat), pos: nat, count: nat)
    requires count > 0 && Repeat(step, pos, count).0.Success?
    ensures step(pos).0.Success? && Repeat(step, pos, count).0.value[0] == step(pos).0.value
  {
    if count > 1 {
      RepeatFirst(step, pos, count - 1);
    }
  }

  /** Reading one mapper. */
  function MapperStep(data: seq<byte>): nat -> (Result<string, ReadError>, nat) {
    (p: nat) => VarString(data, p, false, true)
  }

  /** The mapper list: `count` strings. */
  function ReadMappers(data: seq<byte>, pos: nat, count: nat): (r: (Result<seq<string>, ReadError>, nat))
  {
    Repeat(MapperStep(data), pos, count)
  }

  /** The text fields as the reader stores them. */
  datatype Texts = Texts(mapId: string, mapName: string, songName: string, mappers: seq<string>)

  /** Map ID (commas removed, then sanitised), map name, song name and mappers. */
  function TextsStage(data: seq<byte>, pos: nat): (r: (Result<Texts, ReadError>, nat))
  {
    var id := VarString(data, pos, false, true);
    if id.0.Failure? then (Failure(id.0.error), id.1)
    else
      var name := VarString(data, id.1, false, true);
      if name.0.Failure? then (Failure(name.0.error), name.1)
      else
        var song := VarString(data, name.1, false, true);
        if song.0.Failure? then (Failure(song.0.error), song.1)
        else
          var count := Next(data, song.1, 2);
          var ms := ReadMappers(data, count.1, FromLe(count.0));
          if ms.0.Failure? then (Failure(ms.0.error), ms.1)
          else (Success(Texts(Sanitize(RemoveCommas(id.0.value)), name.0.value, song.0.value, ms.0.value)), ms.1)
  }

  /**
   * The custom data block: two bytes are read and nothing of them is kept
   * (the tag comparisons never match); then the reader seeks to the audio
   * pointer, converted to int64 first.
   */
  function CustomStage(data: seq<byte>, pos: nat, audioOffset: seq<byte>): (r: (Option<ReadError>, nat))
    ensures r.0.None? <==> FromLe(audioOffset) < Pow256(8) / 2
    ensures r.0.None? ==> r.1 == FromLe(audioOffset)
    ensures r.0.Some? ==> r.0.value == PointerOverflow
  {
    var (_, p1) := Next(data, pos, 2);
    var offset := FromLe(audioOffset);
    if offset >= Pow256(8) / 2 then (Some(PointerOverflow), p1) else (None, offset)
  }

  /**
   * One optional section: read only when its flag byte is 1, with the
   * length field converted to int64 first.
   */
  function Section(data: seq<byte>, pos: nat, flag: seq<byte>, length: seq<byte>): (r: (Result<Option<seq<byte>>, ReadError>, nat))
    ensures r.0 == Failure(MissingByte) <==> flag == []
    ensures r.0.Success? && r.0.value.Some? ==> flag[0] == 1 && r.0.value.value == Take(data, pos, FromLe(length))
    ensures r.0.Success? && r.0.value.Some? ==> r.1 == pos + |r.0.value.value|
    ensures flag != [] && flag[0] != 1 ==> r == (Success(None), pos)
  {
    if flag == [] then (Failure(MissingByte), pos)
    else if flag[0] != 1 then (Success(None), pos)
    else if FromLe(length) >= Pow256(8) / 2 then (Failure(PointerOverflow), pos)
    else
      var (b, p) := Next(data, pos, FromLe(length));
      (Success(Some(b)), p)
  }

  /**
   * The first zero byte at or after `pos` is consumed, or the end of the
   * data is reached (an empty read counts as a zero byte).
   */
  function SkipToZero(data: seq<byte>, pos: nat): (r: nat)
    ensures r >= pos
    decreases |data| - pos
  {
    if pos >= |data| then pos
    else if data[pos] == 0 then pos + 1
    else SkipToZero(data, pos + 1)
  }

  /** The skip stops just after the first zero byte, or at the end of the data. */
  lemma {:induction false} SkipToZeroStops(data: seq<byte>, pos: nat)
    requires pos < |data|
    ensures var r := SkipToZero(data, pos);
            pos < r <= |data| && (data[r - 1] == 0 || r == |data|) &&
            forall j :: pos <= j < r - 1 ==> data[j] != 0
    decreases |data| - pos
  {
    if data[pos] != 0 && pos + 1 < |data| {
      SkipToZeroStops(data, pos + 1);
    }
  }

  /**
   * One marker definition: its name, one byte of value count, then bytes
   * up to and including a zero. The result is the name.
   */
  function ReadDefinition(data: seq<byte>, pos: nat): (r: (Result<string, ReadError>, nat))
  {
    var name := VarString(data, pos, false, true);
    if name.0.Failure? then (Failure(name.0.error), name.1)
    else (Success(name.0.value), SkipToZero(data, Next(data, name.1, 1).1))
  }

  /** One definition, reduced to whether it is named "ssp_note". */
  function DefinitionKind(data: seq<byte>, pos: nat): (r: (Result<bool, ReadError>, nat))
  {
    var d := ReadDefinition(data, pos);
    (if d.0.Failure? then Failure(d.0.error) else Success(d.0.value == NoteDefinitionName), d.1)
  }

  /** Reading one definition. */
  function DefinitionStep(data: seq<byte>): nat -> (Result<bool, ReadError>, nat) {
    (p: nat) => DefinitionKind(data, p)
  }

  /** `has_notes`: only the first definition can set it, and only when it is named "ssp_note". */
  function HasNotes(kinds: seq<bool>): bool {
    |kinds| > 0 && kinds[0]
  }

  /** One more definition can only set `has_notes` when it is the first one. */
  lemma HasNotesAppend(kinds: seq<bool>, x: bool)
    ensures HasNotes(kinds + [x]) == (HasNotes(kinds) || (|kinds| == 0 && x))
  {
    assert (kinds + [x])[0] == if |kinds| == 0 then x else kinds[0];
  }

  /** `count` definitions; the result is `has_notes`. */
  function DefinitionLoop(data: seq<byte>, pos: nat, count: nat): (r: (Result<bool, ReadError>, nat))
  {
    var rep := Repeat(DefinitionStep(data), pos, count);
    (if rep.0.Failure? then Failure(rep.0.error) else Success(HasNotes(rep.0.value)), rep.1)
  }

  /**
   * `has_notes` is decided by the first definition alone: it holds exactly
   * when that definition is named "ssp_note", and never without definitions.
   */
  lemma HasNotesFirst(data: seq<byte>, pos: nat, count: nat)
    requires DefinitionLoop(data, pos, count).0.Success?
    ensures count == 0 ==> !DefinitionLoop(data, pos, count).0.value
    ensures count > 0 ==> (DefinitionLoop(data, pos, count).0.value <==> ReadDefinition(data, pos).0 == Success(NoteDefinitionName))
  {
    if count > 0 {
      RepeatFirst(DefinitionStep(data), pos, count);
    }
  }

  /** The definitions section: a count byte, then the definitions; the result is `has_notes`. */
  function DefinitionsStage(data: seq<byte>, pos: nat): (r: (Result<bool, ReadError>, nat))
  {
    var n := Next(data, pos, 1);
    if n.0 == [] then (Failure(MissingByte), n.1)
    else DefinitionLoop(data, n.1, n.0[0])
  }

  /**
   * One marker record. Identifier 0 gives two one-byte grid coordinates;
   * any other identifier gives two float32 values, whose rounding test is
   * the parameter `snap`. The flag result tells which kind was read.
   */
  function DecodeMarker(data: seq<byte>, pos: nat, snap: F32 -> Option<int>): (r: (Result<(Note, bool), ReadError>, nat))
  {
    var (ms, p1) := Next(data, pos, 4);
    var (_, p2) := Next(data, p1, 1);
    var (flag, p3) := Next(data, p2, 1);
    if FromLe(flag) == 0 then
      var (x, p4) := Next(data, p3, 1);
      var (y, p5) := Next(data, p4, 1);
      (Success((Note(Grid(FromLe(x)), Grid(FromLe(y)), FromLe(ms)), false)), p5)
    else
      var (x, p4) := Next(data, p3, 4);
      var (y, p5) := Next(data, p4, 4);
      if |x| < 4 || |y| < 4 then (Failure(ShortFloat), p5)
      else (Success((Note(Free(x, snap(x)), Free(y, snap(y)), FromLe(ms)), true)), p5)
  }

  /** Reading one byte: the byte itself, as an int. */
  lemma ByteAt(data: seq<byte>, p: nat)
    requires p < |data|
    ensures Take(data, p, 1) == [data[p]] && FromLe([data[p]]) == data[p]
  {
    assert [data[p]][1..] == [];
  }

  /**
   * A record at `pos` with identifier (byte 5) 0: the time in bytes 0-3,
   * then one byte per coordinate, 8 bytes in all.
   */
  lemma DecodeGridRecord(data: seq<byte>, pos: nat, snap: F32 -> Option<int>)
    requires pos + 8 <= |data| && data[pos + 5] == 0
    ensures DecodeMarker(data, pos, snap)
         == (Success((Note(Grid(data[pos + 6]), Grid(data[pos + 7]), FromLe(data[pos..pos + 4])), false)), pos + 8)
  {
    ByteAt(data, pos + 5);
    ByteAt(data, pos + 6);
    ByteAt(data, pos + 7);
  }

  /**
   * A record at `pos` with any other identifier: the time in bytes 0-3,
   * then two float32 values, 14 bytes in all.
   */
  lemma DecodeFloatRecord(data: seq<byte>, pos: nat, snap: F32 -> Option<int>)
    requires pos + 14 <= |data| && data[pos + 5] != 0
    ensures var x: F32, y: F32 := data[pos + 6..pos + 10], data[pos + 10..pos + 14];
            DecodeMarker(data, pos, snap)
            == (Success((Note(Free(x, snap(x)), Free(y, snap(y)), FromLe(data[pos..pos + 4])), true)), pos + 14)
  {
    ByteAt(data, pos + 5);
  }

  /** Reading one marker record. */
  function MarkerStep(data: seq<byte>, snap: F32 -> Option<int>): nat -> (Result<(Note, bool), ReadError>, nat) {
    (q: nat) => DecodeMarker(data, q, snap)
  }

  /** The notes of the decoded records, in file order. */
  function RecordNotes(rs: seq<(Note, bool)>): (r: seq<Note>)
    ensures |r| == |rs| && forall i :: 0 <= i < |rs| ==> r[i] == rs[i].0
  {
    seq(|rs|, i requires 0 <= i < |rs| => rs[i].0)
  }

  /** `is_quantum`: whether any record was a float record. */
  function AnyFloat(rs: seq<(Note, bool)>): bool {
    exists i :: 0 <= i < |rs| && rs[i].1
  }

  /** One more record appends its note and joins its kind to `is_quantum`. */
  lemma RecordsAppend(rs: seq<(Note, bool)>, x: (Note, bool))
    ensures RecordNotes(rs + [x]) == RecordNotes(rs) + [x.0]
    ensures AnyFloat(rs + [x]) == (AnyFloat(rs) || x.1)
  {
    var t := rs + [x];
    assert t[|rs|] == x;
    assert forall i :: 0 <= i < |rs| ==> t[i] == rs[i];
  }

  /** `count` marker records in file order, and whether any was a float record. */
  function DecodeMarkers(data: seq<byte>, pos: nat, count: nat, snap: F32 -> Option<int>): (r: (Result<(seq<Note>, bool), ReadError>, nat))
  {
    var rep := Repeat(MarkerStep(data, snap), pos, count);
    (if rep.0.Failure? then Failure(rep.0.error) else Success((RecordNotes(rep.0.value), AnyFloat(rep.0.value))), rep.1)
  }

  /** Everything `_ProcessSSPMV2` stores. `notes` is absent when the file has no note definition. */
  datatype V2Read = V2Read(
    meta: Meta, pointers: Pointers, texts: Texts, audio: Option<seq<byte>>, cover: Option<seq<byte>>,
    hasNotes: bool, notes: Option<(seq<Note>, bool)>)

  /** The sections after the texts: custom data, audio, cover, definitions and, when present, notes. */
  function TrailingStages(data: seq<byte>, pos: nat, meta: Meta, pointers: Pointers, texts: Texts,
                          snap: F32 -> Option<int>): (r: (Result<V2Read, ReadError>, nat))
  {
    var seek := CustomStage(data, pos, pointers.audioOffset);
    if seek.0.Some? then (Failure(seek.0.value), seek.1)
    else
      var audio := Section(data, seek.1, meta.containsAudio, pointers.audioLength);
      if audio.0.Failure? then (Failure(audio.0.error), audio.1)
      else
        var cover := Section(data, audio.1, meta.containsCover, pointers.coverLength);
        if cover.0.Failure? then (Failure(cover.0.error), cover.1)
        else
          var has := DefinitionsStage(data, cover.1);
          if has.0.Failure? then (Failure(has.0.error), has.1)
          else if !has.0.value then (Success(V2Read(meta, pointers, texts, audio.0.value, cover.0.value, false, None)), has.1)
          else
            var ns := DecodeMarkers(data, has.1, FromLe(meta.noteCount), snap);
            if ns.0.Failure? then (Failure(ns.0.error), ns.1)
            else (Success(V2Read(meta, pointers, texts, audio.0.value, cover.0.value, true,
                                 Some((SortByMs(ns.0.value.0), ns.0.value.1)))), ns.1)
  }

  /** `_ProcessSSPMV2`, stage by stage; the notes are sorted by time. */
  function ReadV2(data: seq<byte>, pos: nat, snap: F32 -> Option<int>): (r: (Result<V2Read, ReadError>, nat))
  {
    var meta := MetaStage(data, pos);
    var pointers := PointerStage(data, meta.1);
    var texts := TextsStage(data, pointers.1);
    if texts.0.Failure? then (Failure(texts.0.error), texts.1)
    else TrailingStages(data, texts.1, meta.0, pointers.0, texts.0.value, snap)
  }

  /** The parser attributes a version 2 read sets (besides the header, the audio and the cover). */
  datatype ReadFields = ReadFields(
    hash: seq<byte>, lastMs: PyValue, noteCount: seq<byte>, markerCount: seq<byte>,
    difficulty: PyValue, mapRating: seq<byte>, containsAudio: seq<byte>, containsCover: seq<byte>,
    requiresMod: PyValue, pointers: Pointers, mapId: PyValue, mapName: PyValue, songName: PyValue,
    mappers: Option<seq<string>>, hasNotes: Option<bool>, notes: Option<seq<Note>>, isQuantum: Option<bool>)

  /**
   * The attributes after a successful version 2 read: `last_ms` as an int,
   * the flags and counts as bytes, the texts as strings; `Notes` and
   * `is_quantum` keep their values `before` when the file has no notes.
   */
  function StoredV2(v: V2Read, before: ReadFields): (r: ReadFields)
  {
    ReadFields(
      v.meta.hash, PyInt(FromLe(v.meta.lastMs)), v.meta.noteCount, v.meta.markerCount,
      PyBytes(v.meta.difficulty), v.meta.mapRating, v.meta.containsAudio, v.meta.containsCover,
      PyBytes(v.meta.requiresMod), v.pointers, PyStr(v.texts.mapId), PyStr(v.texts.mapName), PyStr(v.texts.songName),
      Some(v.texts.mappers), Some(v.hasNotes),
      if v.notes.Some? then Some(v.notes.value.0) else before.notes,
      if v.notes.Some? then Some(v.notes.value.1) else before.isQuantum)
  }

  /** The attributes after a read: those of `StoredV2` when it succeeds, `before` when it fails. */
  function StoredRead(r: Result<(HeaderField, V2Read), ReadError>, before: ReadFields): ReadFields
  {
    if r.Success? then StoredV2(r.value.1, before) else before
  }

  // ---------------------------------------------------------------------
  // Version 1

  /**
   * `_ProcessSSPMV1`: the map ID and the map name are read as
   * newline-terminated strings; the next statement reads the attribute
   * `mapName`, which the parser never has, so every version 1 read fails.
   */
  function ReadV1(data: seq<byte>, pos: nat): (r: (ReadError, nat))
  {
    var (id, p1) := NewlineString(data, pos);
    if id.Failure? then (id.error, p1)
    else
      var (name, p2) := NewlineString(data, p1);
      if name.Failure? then (name.error, p2) else (V1MissingAttribute, p2)
  }

  // ---------------------------------------------------------------------
  // ReadSSPM

  /** After the header: the signature check, then the version 1 or version 2 reader. */
  function ReadBody(data: seq<byte>, pos: nat, h: HeaderField, snap: F32 -> Option<int>): (r: (Result<V2Read, ReadError>, nat))
    requires h.HeaderDict?
  {
    if h.signature != HeaderSignature then (Failure(BadSignature), pos)
    else if h.version == 2 then ReadV2(data, pos, snap)
    else
      var v1 := ReadV1(data, pos);
      (Failure(v1.0), v1.1)
  }

  /** `ReadFile` is the header stage followed by the body. */
  lemma ReadFileSplit(data: seq<byte>, pos: nat, snap: F32 -> Option<int>, h: HeaderField, p: nat,
                      body: Result<V2Read, ReadError>, q: nat)
    requires (h, p) == HeaderStage(data, pos) && (body, q) == ReadBody(data, p, h, snap)
    ensures ReadFile(data, pos, snap) == (if body.Failure? then Failure(body.error) else Success((h, body.value)), q)
  {
  }

  /** `ReadSSPM(file)` on a stream at position `pos` holding `data`. */
  function ReadFile(data: seq<byte>, pos: nat, snap: F32 -> Option<int>): (r: (Result<(HeaderField, V2Read), ReadError>, nat))
    ensures r.0.Success? ==> r.0.value.0.HeaderDict? && r.0.value.0.version == 2
    ensures Take(data, pos, 4) != HeaderSignature ==> r.0 == Failure(BadSignature)
  {
    var h := HeaderStage(data, pos);
    var body := ReadBody(data, h.1, h.0, snap);
    (if body.0.Failure? then Failure(body.0.error) else Success((h.0, body.0.value)), body.1)
  }
}
