/**
 * The values the fields of an `SSPMParser` can hold, the class constants,
 * the errors, and the keyword arguments of `WriteSSPM`. Several fields
 * change Python type along the way (a `str` before a write, `bytes` after
 * it), which `PyValue` records.
 */
module SspmState {
  import opened Wrappers
  import opened Bytes
  import opened NoteModel

  /** The Python values the loosely typed fields hold. */
  datatype PyValue = PyNone | PyInt(i: int) | PyBytes(b: seq<byte>) | PyStr(s: string)

  /** Python truthiness (`not v`). */
  predicate Truthy(v: PyValue) {
    match v
    case PyNone => false
    case PyInt(i) => i != 0
    case PyBytes(b) => b != []
    case PyStr(s) => s != ""
  }

  /** `Header`: the 10 bytes a write stores, or the dictionary a read stores. */
  datatype HeaderField =
    | HeaderBytes(bytes: seq<byte>)
    | HeaderDict(signature: seq<byte>, version: int, reserve: seq<byte>)

  /**
   * The ten pointer-table fields, as stored bytes. `custom_data_offset`
   * starts as the int 0 and becomes 8 bytes once a write or a read has
   * set it, so it is a `PyValue`.
   */
  datatype Pointers = Pointers(
    customDataOffset: PyValue, customDataLength: seq<byte>,
    audioOffset: seq<byte>, audioLength: seq<byte>,
    coverOffset: seq<byte>, coverLength: seq<byte>,
    markerDefinitionsOffset: seq<byte>, markerDefinitionsLength: seq<byte>,
    markerOffset: seq<byte>, markerLength: seq<byte>)

  /**
   * The attributes `WriteSSPM` reads, after its keyword arguments are
   * applied: `Notes`, `audio_bytes`, `cover_bytes`, `Difficulty`,
   * `map_name`, `song_name`, `mappers`, `map_ID`, `requires_mod` and
   * `export_offset`.
   */
  datatype WriteInput = WriteInput(
    notes: Option<seq<Note>>,
    audioBytes: Option<seq<byte>>,
    coverBytes: Option<seq<byte>>,
    difficulty: PyValue,
    mapName: PyValue,
    songName: PyValue,
    mappers: Option<seq<string>>,
    mapId: PyValue,
    requiresMod: PyValue,
    exportOffset: int)

  // ---------------------------------------------------------------------
  // Class constants

  /** `HEADER_SIGNATURE`, "SS+m". */
  const HeaderSignature: seq<byte> := [0x53, 0x53, 0x2b, 0x6d]

  /** The header every write emits: signature, version 2, four reserved zero bytes. */
  const WrittenHeader: seq<byte> := [0x53, 0x53, 0x2b, 0x6d, 0x02, 0x00, 0x00, 0x00, 0x00, 0x00]

  /** `INVALID_CHARS`: the characters a map ID may not contain once read. */
  const InvalidChars: set<char> := {'/', '\\', ':', '*', '?', '"', '<', '>', '|'}

  /** `DIFFICULTIES`. */
  const Difficulties: map<string, int> :=
    map["N/A" := 0x00, "Easy" := 0x01, "Medium" := 0x02, "Hard" := 0x03, "Logic" := 0x04, "Tasukete" := 0x05]

  /** The name of the one marker definition the codec knows. */
  const NoteDefinitionName: string := "ssp_note"

  /** The song name written when none is set. */
  const DefaultSongName: string := "sspmLib Song - author"

  /** The 8 zero bytes standing for the length of an absent audio or cover section. */
  const ZeroLength: seq<byte> := [0, 0, 0, 0, 0, 0, 0, 0]

  /**
   * The marker definitions section: a count of 1, the name "ssp_note" with
   * its 2-byte length 8, then one value of data type 7 and the 0 that ends
   * the definition.
   */
  const MarkerDefinitions: seq<byte> :=
    [0x01, 0x08, 0x00, 0x73, 0x73, 0x70, 0x5f, 0x6e, 0x6f, 0x74, 0x65, 0x01, 0x07, 0x00]

  lemma MarkerDefinitionsSpellName()
    ensures AsciiEncode(NoteDefinitionName) == Some(MarkerDefinitions[3..11])
    ensures |MarkerDefinitions| == 14
  {
    var e := AsciiEncode(NoteDefinitionName);
    assert IsAscii(NoteDefinitionName);
    assert e.value == MarkerDefinitions[3..11];
  }

  // ---------------------------------------------------------------------
  // Errors

  /** How a write fails (the Python exception in parentheses). */
  datatype WriteError =
    | NotesMissing        // Notes is None (TypeError at Notes[-1])
    | NotesEmpty          // Notes is [] (IndexError at Notes[-1])
    | OutOfRange          // a value does not fit its field (OverflowError)
    | NotText             // a field is not a str where one is needed (AttributeError, TypeError)
    | NonAscii            // a text is not ASCII (UnicodeEncodeError)
    | DifficultyNotBytes  // Difficulty is still not bytes when the metadata is joined (TypeError)

  /** How a read fails (the Python exception or behaviour in parentheses). */
  datatype ReadError =
    | BadSignature        // ValueError: the first 4 bytes are not "SS+m"
    | V1MissingAttribute  // AttributeError: the v1 reader reads self.mapName, never set
    | NoNewline           // the v1 string reader never finds a newline and loops forever
    | NonAsciiText        // UnicodeDecodeError
    | StringTooLong       // np.int16 of a length prefix >= 32768 (OverflowError)
    | MissingByte         // IndexError on an empty read
    | PointerOverflow     // np.int64 of an offset or length >= 2^63 (OverflowError)
    | ShortFloat          // np.frombuffer of fewer than 4 bytes

  // ---------------------------------------------------------------------
  // Keyword overrides of WriteSSPM

  /**
   * One keyword argument of `WriteSSPM`. The keywords naming the fields the
   * writer reads have their own constructor; `Unknown(name)` is a keyword
   * that names no attribute of the parser, which only draws a warning.
   */
  datatype Override =
    | SetNotes(notes: Option<seq<Note>>)
    | SetAudioBytes(audio: Option<seq<byte>>)
    | SetCoverBytes(cover: Option<seq<byte>>)
    | SetDifficulty(difficulty: PyValue)
    | SetMapName(mapName: PyValue)
    | SetSongName(songName: PyValue)
    | SetMappers(mappers: Option<seq<string>>)
    | SetMapId(mapId: PyValue)
    | SetRequiresMod(requiresMod: PyValue)
    | SetExportOffset(exportOffset: int)
    | Unknown(name: string)

  function ApplyOverride(s: WriteInput, o: Override): WriteInput {
    match o
    case SetNotes(v) => s.(notes := v)
    case SetAudioBytes(v) => s.(audioBytes := v)
    case SetCoverBytes(v) => s.(coverBytes := v)
    case SetDifficulty(v) => s.(difficulty := v)
    case SetMapName(v) => s.(mapName := v)
    case SetSongName(v) => s.(songName := v)
    case SetMappers(v) => s.(mappers := v)
    case SetMapId(v) => s.(mapId := v)
    case SetRequiresMod(v) => s.(requiresMod := v)
    case SetExportOffset(v) => s.(exportOffset := v)
    case Unknown(_) => s
  }

  /** The state after the keyword loop, applied in argument order. */
  function Overridden(s: WriteInput, kw: seq<Override>): WriteInput {
    if kw == [] then s else ApplyOverride(Overridden(s, Init(kw)), Last(kw))
  }

  /** Keywords that name no attribute leave the state as it was. */
  lemma {:induction false} OverriddenUnknown(s: WriteInput, kw: seq<Override>)
    requires forall i :: 0 <= i < |kw| ==> kw[i].Unknown?
    ensures Overridden(s, kw) == s
  {
    if kw != [] {
      assert Last(kw).Unknown?;
      OverriddenUnknown(s, Init(kw));
    }
  }

  /** Without a `Notes=` keyword the notes stay as they were. */
  lemma {:induction false} OverriddenKeepsNotes(s: WriteInput, kw: seq<Override>)
    requires forall i :: 0 <= i < |kw| ==> !kw[i].SetNotes?
    ensures Overridden(s, kw).notes == s.notes
  {
    if kw != [] {
      assert !Last(kw).SetNotes?;
      OverriddenKeepsNotes(s, Init(kw));
    }
  }

  /** The notes are those of the last `Notes=` keyword. */
  lemma {:induction false} OverriddenLastNotes(s: WriteInput, kw: seq<Override>, i: nat)
    requires i < |kw| && kw[i].SetNotes?
    requires forall j :: i < j < |kw| ==> !kw[j].SetNotes?
    ensures Overridden(s, kw).notes == kw[i].notes
  {
    if i < |kw| - 1 {
      assert !Last(kw).SetNotes?;
      OverriddenLastNotes(s, Init(kw), i);
    }
  }
}
