# pysspm_rhythia SSPM v2 codec in Dafny

This project models the Sound Space Plus map (SSPM) codec of `pysspm_rhythia`, together with the colour helpers and the `Note` record of its extras module, and proves properties of the model.

The codec is the class `SSPMParser`. It is modelled as the Dafny class `Parser.SSPMParser`, whose fields are the Python attributes that `WriteSSPM` and `ReadSSPM` overwrite in place.

**Writer.** `WriteSSPM` applies its keyword overrides and normalises the difficulty, the flags and the text fields. It then builds these sections in order:
- the 10-byte header;
- the SHA-1 of the marker definitions followed by the markers;
- 18 bytes of metadata;
- an 80-byte pointer table;
- the length-prefixed strings;
- two bytes of custom data;
- the audio, the cover, the 14-byte marker definitions and the marker records.

**Reader.** `ReadSSPM` reads the header, checks the `SS+m` signature and dispatches on the version. For version 2, `_ProcessSSPMV2`:
- reads the fixed fields, the strings and the mapper list;
- jumps to the audio pointer;
- reads audio and cover;
- decides `has_notes` from the first marker definition;
- decodes `note_count` marker records and sorts them by time.

**How the model is built.**
- Each write stage and read stage is a pure function:
  - write side: `WriteModel.ConfigStage`, `StringsStage`, `EncodeMarkers`, `Assemble`, `WriteFile`;
  - read side: `ReadModel.HeaderStage`, `MetaStage`, `PointerStage`, `TextsStage`, `CustomStage`, `Section`, `DefinitionsStage`, `DecodeMarkers`, `ReadFile`.
- The class's methods and loops are proved to compute those functions and to store their results in the fields.
- The reader's `BytesIO` is the class `Stream.Cursor`. Its `read(n)` returns fewer bytes at the end of the data, and `int.from_bytes(b'')` is 0.
- Python's dynamically typed attributes (`Difficulty`, `song_name`, `map_ID`, …) are the datatype `SspmState.PyValue`.
- numpy conversions that raise `OverflowError` are explicit range checks:
  - `np.int16` of a string length;
  - `np.int64` of a pointer;
  - `np.uint32`/`np.uint16`/`np.uint64` and `int.to_bytes` on the write side.
- The following are function parameters:
  - SHA-1: `seq<byte> -> Digest`, where a digest is 20 bytes;
  - the float32 bytes of an integer coordinate: `fromInt`;
  - the two-decimal rounding test on a float32 read back: `snap`.

**Main results.**
- `WriteRead.WriteThenRead`: reading back the bytes `WriteSSPM` returns gives all of the following:
  - the header;
  - the metadata with `last_ms` the maximum note time;
  - the pointer table;
  - the sanitised map ID, the map name, the song name and the mappers;
  - the audio and the cover as written;
  - `has_notes`;
  - the notes stably sorted by time, with `is_quantum` false.
- `WriteRead.PointersPastSections`: each absent audio or cover section shifts the later pointers 8 bytes past the true positions.

## Model

| member | source | states |
|---|---|---|
| Parser.SSPMParser.constructor | pysspm_rhythia/pysspm.py:61-80 | A new parser has `export_offset` 0, the default 10-byte header, `Difficulty` 0, `requires_mod` 0 and `custom_data_offset` 0. Its texts, mappers, notes, audio and cover are `None`. |
| Parser.SSPMParser.SetAttribute | pysspm_rhythia/pysspm.py:142-146 | One keyword argument sets the attribute it names. A name that is no attribute changes nothing. |
| Parser.SSPMParser.ApplyOverrides | pysspm_rhythia/pysspm.py:142-146 | After the keyword loop, the attributes are the old ones with every keyword applied in argument order (`Overridden`). |
| Parser.SSPMParser.Configure | pysspm_rhythia/pysspm.py:156-166 | Computes `ConfigStage`: provisional `last_ms` (the time of the last note in list order), the 4-byte note count, and the difficulty looked up by name and turned into one byte when it is an int. |
| Parser.SSPMParser.EncodeMappers | pysspm_rhythia/pysspm.py:187-203 | The mapper loop builds `MappersSection`: each mapper as its 2-byte length then its ASCII bytes. It fails at the first non-ASCII or over-long mapper. |
| Parser.SSPMParser.EncodeTexts | pysspm_rhythia/pysspm.py:173-183 | Computes the song name (the default when falsy), the map ID (mappers joined by `_`, `_`, the map name with spaces replaced, or the stored ID under `forcemapid`) and the map name. Each is ASCII-encoded, with the error the source raises. |
| Parser.SSPMParser.EncodeStrings | pysspm_rhythia/pysspm.py:173-206 | The strings section: map ID, map name and song name, each length-prefixed, then the mapper count and the mapper list. |
| Parser.SSPMParser.EncodeNotes | pysspm_rhythia/pysspm.py:255-289 | The note loop produces the marker records of `EncodeMarkers` in list order. When it succeeds, `last` is `MaxMs`: the running maximum of the note times, starting from 0. |
| Parser.SSPMParser.Finish | pysspm_rhythia/pysspm.py:289-345 | Computes `Assemble`: metadata, pointer table, hash and the concatenated file, or the error of a value that does not fit. |
| Parser.SSPMParser.WriteStages | pysspm_rhythia/pysspm.py:149-345 | Runs the stages in the source's order and gives `WriteFile` of the attributes: the file and the values stored, or the first error raised. |
| Parser.SSPMParser.WriteSSPM | pysspm_rhythia/pysspm.py:106-352 | Returns `WriteFile` of the attributes after the keyword arguments. It always stores the header, the flags and the normalised `requires_mod`. On success it also stores `last_ms`, the counts, the difficulty byte, the pointers, the encoded texts, and audio and cover (`b''` when absent). |
| Parser.SSPMParser.SetFlags | pysspm_rhythia/pysspm.py:149-158 | The header is the fixed 10 bytes. The contains-flags are `01` exactly when the payload is not `None`. `requires_mod` becomes `01` only for `1` or `b'\x01'`. |
| Parser.SSPMParser.Store | pysspm_rhythia/pysspm.py:161-182 | Stores what a successful write computed: `last_ms`, the note and marker counts, difficulty, texts, pointers, and audio and cover. |
| Parser.SSPMParser.GetNextVariableString | pysspm_rhythia/pysspm.py:82-92 | Reads a length prefix (2 bytes, or 1 without `V2`) then that many ASCII bytes, as `VarString`. The cursor ends after them. |
| Parser.SSPMParser.NewLineTerminatedString | pysspm_rhythia/pysspm.py:94-103 | The byte loop returns the text before the next newline and consumes the newline, as `NewlineString`. |
| Parser.SSPMParser.SanitizeMapId | pysspm_rhythia/pysspm.py:449-451 | The loop replaces each invalid character by `_` in place and keeps the others: the result is `Sanitize(id)`. |
| Parser.SSPMParser.ReadHeader | pysspm_rhythia/pysspm.py:394-397 | Stores the header dictionary of `HeaderStage`: the signature, version 2 exactly for `02 00`, and the reserve. |
| Parser.SSPMParser.ReadMetadata | pysspm_rhythia/pysspm.py:421-430 | Reads hash, `last_ms`, counts, difficulty, rating, flags and `requires_mod` with their widths, as `MetaStage`. |
| Parser.SSPMParser.ReadPointers | pysspm_rhythia/pysspm.py:433-442 | Reads the ten 8-byte pointer fields in order, as `PointerStage`. |
| Parser.SSPMParser.ReadMapperList | pysspm_rhythia/pysspm.py:456-462 | Reads exactly `count` mapper strings, stopping at the first failure, as `ReadMappers`. |
| Parser.SSPMParser.ReadTexts | pysspm_rhythia/pysspm.py:445-462 | Reads the sanitised map ID (commas removed, invalid characters replaced), the map name, the song name, the mapper count and the mappers, as `ReadModel.TextsStage`. |
| Parser.SSPMParser.SkipCustomData | pysspm_rhythia/pysspm.py:464-526 | Skips the custom data and seeks to the audio pointer. It fails only when that pointer overflows `np.int64` (`CustomStage`). |
| Parser.SSPMParser.ReadSection | pysspm_rhythia/pysspm.py:530-539 | Reads an audio or cover payload of the recorded length when its flag byte is 1, and nothing otherwise (`Section`). |
| Parser.SSPMParser.SkipDefinitionData | pysspm_rhythia/pysspm.py:557-559 | The value loop stops after a zero byte or at the end of the data (`SkipToZero`). |
| Parser.SSPMParser.ReadDefinitionEntry | pysspm_rhythia/pysspm.py:552-559 | One definition: its name, the value count and the values up to the zero byte (`ReadDefinition`). |
| Parser.SSPMParser.ReadDefinitionLoop | pysspm_rhythia/pysspm.py:551-559 | Reads `count` definitions and gives `has_notes` (`DefinitionLoop`). |
| Parser.SSPMParser.ReadDefinitionList | pysspm_rhythia/pysspm.py:547-559 | The definition count byte, then the definitions (`DefinitionsStage`). |
| Parser.SSPMParser.ReadMarker | pysspm_rhythia/pysspm.py:570-599 | One marker record as `DecodeMarker`: time, type, identifier, then two 1-byte grid coordinates or two float32 values. |
| Parser.SSPMParser.ReadMarkers | pysspm_rhythia/pysspm.py:566-604 | Reads exactly `count` records. It gives their notes in file order and whether any was a float record (`DecodeMarkers`). |
| Parser.SSPMParser.ReadLeading | pysspm_rhythia/pysspm.py:419-462 | Metadata, pointer table and texts read in sequence from the cursor. |
| Parser.SSPMParser.ReadTrailing | pysspm_rhythia/pysspm.py:464-604 | Custom data, audio, cover, definitions and notes (`TrailingStages`). With no `ssp_note` definition it returns before the notes. |
| Parser.SSPMParser.ProcessV2 | pysspm_rhythia/pysspm.py:417-606 | The whole version 2 reader (`ReadV2`). |
| Parser.SSPMParser.ProcessV1 | pysspm_rhythia/pysspm.py:622-637 | The version 1 reader reads two newline-terminated strings and then fails on the never-set `mapName` (`ReadV1`). |
| Parser.SSPMParser.StoreMeta | pysspm_rhythia/pysspm.py:421-430 | Stores the metadata fields. `last_ms` is stored as the int of its 4 bytes. |
| Parser.SSPMParser.StoreRest | pysspm_rhythia/pysspm.py:433-462 | Stores pointers, texts, mappers and `has_notes`. `Notes` and `is_quantum` change only when notes were decoded, and otherwise keep their old values. |
| Parser.SSPMParser.ProcessBody | pysspm_rhythia/pysspm.py:404-412 | Signature check, then the version 2 or version 1 reader (`ReadBody`). |
| Parser.SSPMParser.StoreV2 | pysspm_rhythia/pysspm.py:417-606 | The attributes after a version 2 read are `StoredV2` of what was read. |
| Parser.SSPMParser.Load | pysspm_rhythia/pysspm.py:385-386 | Stores the attributes of a successful version 2 read: audio and cover are what was read, the rest is `StoredV2`. It stores nothing for a failed read. |
| Parser.SSPMParser.ReadSSPM | pysspm_rhythia/pysspm.py:357-415 | The cursor moves as `ReadFile` reads and the header is always stored. It returns the error exactly when `ReadFile` fails. After a success, audio, cover and the other attributes are those of the read. After a bad signature or a version 1 file, audio and cover stay `None`. |
| Parser.SSPMParser.Notes2Text | pysspm_rhythia/pysspm.py:608-619 | Fails (the `TypeError` of iterating `None`) exactly when `Notes` is `None`. Otherwise the loop produces `NotesText`: `,x\|y\|ms` for each note in list order. |
| Stream.Cursor.Read | pysspm_rhythia/pysspm.py:84-90 | `read(n)` returns the next at most n bytes and advances past them. |
| Stream.Cursor.Seek | pysspm_rhythia/pysspm.py:523-526 | `seek(p)` moves the cursor to p. |
| Bytes.Unsigned | pysspm_rhythia/pysspm.py:161-162 | A w-byte unsigned conversion succeeds exactly for 0 ≤ n < 256^w, and its bytes read back as n. |
| Bytes.FromLeLe | pysspm_rhythia/pysspm.py:296-327 | Little-endian bytes written for n read back as n. |
| Bytes.LeFromLe | pysspm_rhythia/pysspm.py:421-442 | Any w bytes read as an int and written back in w bytes are unchanged. |
| Bytes.AsciiEncode | pysspm_rhythia/pysspm.py:173-182 | Encoding succeeds exactly for ASCII text. It keeps the length and gives each character's code. |
| Bytes.AsciiDecodeSpec | pysspm_rhythia/pysspm.py:92 | Decoding succeeds exactly when every byte is below 128, and gives the characters of those codes. |
| Bytes.AsciiRoundTrip | pysspm_rhythia/pysspm.py:173-182 | ASCII text encoded and decoded is unchanged. |
| SspmState.MarkerDefinitionsSpellName | pysspm_rhythia/pysspm.py:314-319 | The 14 marker-definition bytes are `01`, the length-prefixed name `ssp_note`, then `01 07 00`. |
| SspmState.OverriddenUnknown | pysspm_rhythia/pysspm.py:142-146 | Keywords that name no attribute change no field. |
| SspmState.OverriddenKeepsNotes | pysspm_rhythia/pysspm.py:142-146 | Without a `Notes` keyword, the notes are unchanged. |
| SspmState.OverriddenLastNotes | pysspm_rhythia/pysspm.py:142-146 | With several `Notes` keywords, the last one wins. |
| WriteModel.SongNameBytes | pysspm_rhythia/pysspm.py:173 | A falsy song name becomes `sspmLib Song - author`. A non-empty str is encoded. Any other truthy value fails, because it has no `encode`. |
| WriteModel.MapIdText | pysspm_rhythia/pysspm.py:175-178 | Without `forcemapid`, the ID exists exactly when mappers are set and the map name is a str. With it, exactly when the stored ID is a str. |
| WriteModel.MappersSectionSucceeds | pysspm_rhythia/pysspm.py:187-203 | The mapper list encodes exactly when every mapper is ASCII and shorter than 65536 bytes. |
| WriteModel.MappersSectionStops | pysspm_rhythia/pysspm.py:187-203 | The first mapper that fails decides the outcome of the whole list. |
| WriteModel.EncodeMarker | pysspm_rhythia/pysspm.py:266-285 | A record is 8 bytes for a grid note and 14 for a float note. It is produced exactly when time plus offset fits 4 bytes and, for a grid note, each rounded coordinate fits a uint16. |
| WriteModel.EncodeMarkerFields | pysspm_rhythia/pysspm.py:272-285 | A record's bytes are: the time plus `export_offset` in 4 bytes, `00`, the identifier (`00` grid, `01` float), then either the low byte of each rounded coordinate or the two float32 values. |
| WriteModel.EncodeMarkersSuccess | pysspm_rhythia/pysspm.py:260-286 | The markers section is written exactly when every note's record can be. |
| WriteModel.EncodeMarkersStops | pysspm_rhythia/pysspm.py:260-286 | The first note that fails decides the outcome. |
| WriteModel.DifficultyLookup | pysspm_rhythia/pysspm.py:52-59 | A difficulty name in `DIFFICULTIES` maps to its number 0-5. Any other value passes unchanged. |
| WriteModel.ConfigStageOutcome | pysspm_rhythia/pysspm.py:156-166 | `Notes` None or empty fails with the source's error. Otherwise the stage succeeds exactly when the last time, the count and an int difficulty fit their widths. It stores the last note's time, the count and the one-byte difficulty. |
| WriteModel.StringsStageOutcome | pysspm_rhythia/pysspm.py:173-206 | The strings section is written exactly when every text and mapper is ASCII and fits its 2-byte length. It stores the encodings of the song name, the map ID and the map name. |
| WriteModel.SectionLayout | pysspm_rhythia/pysspm.py:297-327 | The running offsets: custom data at 128 + len(strings), audio 2 later. Each later section follows the previous one's length, or 8 for an absent audio or cover. Markers follow the 14 definition bytes. |
| WriteModel.PointerTable | pysspm_rhythia/pysspm.py:297-327 | The table exists exactly when every offset and length fits `np.uint64`. |
| WriteModel.AssembleOutcome | pysspm_rhythia/pysspm.py:289-345 | The final stage fails on a `last_ms` outside uint32 or a difficulty that is not bytes. Otherwise it stores the maximum time, the difficulty byte, and audio and cover with `b''` for an absent one. |
| WriteModel.WriteFileStages | pysspm_rhythia/pysspm.py:149-345 | A successful write went through every stage in order, and stores what each stage produced. |
| WriteModel.RewriteFails | pysspm_rhythia/pysspm.py:173 | After a successful write, `song_name` is non-empty bytes. Writing again with the same notes and no new song name therefore fails on `song_name.encode`. |
| ReadModel.VarStringOutcome | pysspm_rhythia/pysspm.py:82-92 | A length of 32768 or more fails (`np.int16`) unless `fourbytes` is set. A successful read is the text whose ASCII bytes follow the prefix, and the cursor ends right after them. |
| ReadModel.NewlineIndex | pysspm_rhythia/pysspm.py:96-100 | Finds the first newline at or after the position, or proves there is none. |
| ReadModel.NewlineStringOutcome | pysspm_rhythia/pysspm.py:94-103 | The string is the ASCII text up to the first newline, and the newline is consumed. Without a newline there is no string. |
| ReadModel.RemoveCommas | pysspm_rhythia/pysspm.py:445 | The map ID after `replace(",", "")` has no comma, and a comma-free ID is unchanged. |
| ReadModel.Sanitize | pysspm_rhythia/pysspm.py:449-451 | Same length. Each character of `INVALID_CHARS` becomes `_` and every other character is kept. |
| ReadModel.MapIdStable | pysspm_rhythia/pysspm.py:445-451 | The stored map ID has no comma and no invalid character, so sanitising it again changes nothing. |
| ReadModel.HeaderStage | pysspm_rhythia/pysspm.py:394-397 | The signature is the first 4 bytes. The version is 2 exactly when the next two bytes are `02 00`, and 1 otherwise. The reserve is 4 bytes for version 2 and 2 for version 1, read before any check. |
| ReadModel.ReadFile | pysspm_rhythia/pysspm.py:357-415 | A successful read is a version 2 file. Any signature other than `SS+m` fails with `BadSignature` (ValueError). |
| ReadModel.CustomStage | pysspm_rhythia/pysspm.py:464-526 | The custom-data block leaves the cursor at the audio pointer, and fails exactly when that pointer overflows `np.int64`. |
| ReadModel.Section | pysspm_rhythia/pysspm.py:530-539 | An empty flag fails (`contains_audio[0]` on `b''`). Flag 1 reads the recorded length from the cursor. Any other flag reads nothing. |
| ReadModel.SkipToZeroStops | pysspm_rhythia/pysspm.py:557-559 | The value loop consumes at least one byte and stops right after the first zero byte, or at the end of the data. |
| ReadModel.HasNotesFirst | pysspm_rhythia/pysspm.py:551-553 | `has_notes` holds exactly when the first definition is named `ssp_note`, and never without definitions. |
| ReadModel.HasNotesAppend | pysspm_rhythia/pysspm.py:553 | A later definition never changes `has_notes`. |
| ReadModel.RepeatFirst | pysspm_rhythia/pysspm.py:551-553 | A loop that succeeds starts with what its first read gave. |
| ReadModel.DecodeGridRecord | pysspm_rhythia/pysspm.py:566-583 | A record with identifier 0 is the 4-byte time, then two 1-byte coordinates, 8 bytes in all, and is not a float record. |
| ReadModel.DecodeFloatRecord | pysspm_rhythia/pysspm.py:566-599 | A record with any other identifier holds two float32 coordinates, 14 bytes in all, and is a float record. |
| ReadModel.RecordNotes | pysspm_rhythia/pysspm.py:601 | The notes appended, one per record, in file order. |
| ReadModel.RecordsAppend | pysspm_rhythia/pysspm.py:566-604 | Each record appends its note, and sets `is_quantum` if it is a float record. |
| ReadModel.ReadFileSplit | pysspm_rhythia/pysspm.py:394-412 | A read is the header stage followed by the signature check and the body reader. |
| NoteModel.SortByMs | pysspm_rhythia/pysspm.py:603 | `sorted(Notes, key=ms)` is ordered by time, is a permutation, and keeps the list order of notes with equal times (stability). |
| NoteModel.SortedStableIsUnique | pysspm_rhythia/pysspm.py:603 | Any time-ordered list that keeps each time's notes in their original order is exactly `SortByMs`. |
| NoteModel.MaxMs | pysspm_rhythia/pysspm.py:259-289 | `last_ms` is at least 0 and every note time. It is 0 or the time of some note. |
| NoteModel.MaxMsStep | pysspm_rhythia/pysspm.py:283-284 | One loop step raises the running maximum only for a later, larger time. |
| NoteModel.DigitsRoundTrip | pysspm_rhythia/pysspm.py:614-617 | The decimal text of an int in the f-string reads back as that int. |
| NoteModel.NotesTextShape | pysspm_rhythia/pysspm.py:608-619 | The text has one comma per note, is empty exactly for no notes, and otherwise starts with a comma. |
| NoteModel.TextExample | pysspm_rhythia/pysspm.py:603-619 | The notes at 500, 250 and 1500 ms, once sorted, give `,0\|1\|250,1\|1\|500,2\|0\|1500`. |
| NoteModel.SortExample | pysspm_rhythia/pysspm.py:603 | Three notes out of order are sorted by time. |
| RoundTrip.HeaderOf | pysspm_rhythia/pysspm.py:149-153 | The written header reads back as signature `SS+m`, version 2 and reserve `00 00 00 00`, 10 bytes. |
| RoundTrip.MetaOf | pysspm_rhythia/pysspm.py:296 | The written hash and metadata read back field by field in 38 bytes: `last_ms`, both counts, difficulty, rating `00 00`, flags and `requires_mod`. |
| RoundTrip.PointersOf | pysspm_rhythia/pysspm.py:333-334 | The written pointer table reads back as the same ten fields. |
| RoundTrip.VarStringOf | pysspm_rhythia/pysspm.py:180-182 | A length-prefixed ASCII string shorter than 32768 bytes reads back as its text. |
| RoundTrip.MappersOf | pysspm_rhythia/pysspm.py:187-203 | The written mapper list reads back as the same mappers. |
| RoundTrip.TextsOf | pysspm_rhythia/pysspm.py:206 | The written strings section reads back as the sanitised map ID, the map name, the song name and the mappers. |
| RoundTrip.CustomOf | pysspm_rhythia/pysspm.py:210 | Custom data resumes at the written audio offset. |
| RoundTrip.SectionOf | pysspm_rhythia/pysspm.py:302-312 | The written audio or cover reads back as it was, and an absent one stays absent. |
| RoundTrip.DefinitionsOf | pysspm_rhythia/pysspm.py:314-319 | The written marker definitions read back with `has_notes` true, 14 bytes. |
| RoundTrip.GridRecordOf | pysspm_rhythia/pysspm.py:272-285 | A grid note with coordinates 0-255 is written as time, `00 00`, x, y. |
| RoundTrip.GridRecordAt | pysspm_rhythia/pysspm.py:566-601 | Those 8 bytes read back as the same note, not a float record. |
| RoundTrip.MarkersOf | pysspm_rhythia/pysspm.py:260-286 | The written markers of grid notes read back as the same notes in list order. |
| RoundTrip.FileReads | pysspm_rhythia/pysspm.py:345 | A file laid out as the writer lays it out reads back completely, with the notes sorted by time. |
| WriteRead.PointerOffsets | pysspm_rhythia/pysspm.py:297-327 | The recorded audio offset is 130 + len(strings). The definitions and marker offsets exceed the true positions by 8 for each absent audio or cover. |
| WriteRead.PointersPastSections | pysspm_rhythia/pysspm.py:302-327 | In the written file, the audio, the definitions and the markers lie at their true positions. The recorded definitions and marker pointers are 8 bytes further per absent section. |
| WriteRead.SongNameDecodes | pysspm_rhythia/pysspm.py:173 | The written song name decodes back to the given name or the default. |
| WriteRead.WrittenLayout | pysspm_rhythia/pysspm.py:149-345 | A successful write has exactly the section layout the reader expects. |
| WriteRead.WriteThenRead | pysspm_rhythia/pysspm.py:255-289 | Reading the written bytes gives header version 2, the written metadata with `last_ms` the maximum time, the pointers, the sanitised map ID, name, song name and mappers, audio and cover as given, and the notes stably sorted by time with `is_quantum` false. |
| Extras.HexToRgb | pysspm_rhythia/extras.py:271-273 | Gives three ints in -15..255, each parsed from two characters after the leading `#`s, or a ValueError. `int(s, 16)` strips the white space Python 3.12 strips and reads decimal digits of any script. |
| Extras.StripLeftSuffix | pysspm_rhythia/extras.py:273 | `int()`'s leading strip drops only white space and keeps a suffix that does not start with white space. |
| Extras.StripRightPrefix | pysspm_rhythia/extras.py:273 | `int()`'s trailing strip drops only white space and keeps a prefix that does not end with white space. |
| Extras.NoBreakSpaceColor | pysspm_rhythia/extras.py:271-273 | `hex_to_rgb('#\xa0f0000')` is `(15, 0, 0)`: a no-break space is stripped. |
| Extras.ArabicIndicColor | pysspm_rhythia/extras.py:271-273 | `hex_to_rgb('\u0661\u06620000')` is `(18, 0, 0)`: Arabic-Indic digits are read as digits. |
| Extras.SeparatorNotStripped | pysspm_rhythia/extras.py:273 | `int('\x1cf', 16)` fails: the separator 0x1C is not stripped, although `str.isspace` accepts it. |
| Extras.LStripHashes | pysspm_rhythia/extras.py:272 | `lstrip('#')` removes every leading `#` and nothing else. |
| Extras.RgbToHex | pysspm_rhythia/extras.py:276-277 | Succeeds exactly for at least three components and starts with `#`. Fewer components is an IndexError. |
| Extras.RgbToHexShape | pysspm_rhythia/extras.py:276-277 | Components in 0-255 give `#` and six lowercase hex digits, two per component, zero-padded. |
| Extras.RgbRoundTrip | pysspm_rhythia/extras.py:271-277 | `hex_to_rgb(rgb_to_hex(c)) == c` for every triple in 0-255. |
| Extras.HexRoundTrip | pysspm_rhythia/extras.py:271-277 | A lowercase `#rrggbb` colour parses into range and formats back to itself. |
| Extras.ParseAll | pysspm_rhythia/extras.py:281 | The list comprehension parses every colour, or fails with the first error. |
| Extras.BlendColors | pysspm_rhythia/extras.py:280-283 | `blend_colors([])` is an IndexError. Otherwise it succeeds exactly when every colour parses. |
| Extras.BlendIsFloorMean | pysspm_rhythia/extras.py:280-283 | For colours in range, each blended component is the floor of the mean of the inputs' components. |
| Extras.MeansAreFloorMeans | pysspm_rhythia/extras.py:282 | `sum(x) // len(x)` of in-range triples is in range and is the floor of each component's mean. |
| Extras.BlendSingle | pysspm_rhythia/extras.py:280-283 | Blending one lowercase colour gives that colour. |
| Extras.NewNote | pysspm_rhythia/extras.py:46-87 | Fails (ValueError) exactly when `note` is not a triple or `vector` not a 4-tuple. Otherwise `.note == (x, y, ms)` and the classifications are kept. |
| Extras.NoteTupleOverrides | pysspm_rhythia/extras.py:72-76 | With `note=t`, x, y and ms come from `t` and the separately passed values are ignored. |
| Extras.NoteWithoutVector | pysspm_rhythia/extras.py:80-85 | Without `vector`, dx = dy = dt = dh = 0 and `.note == (x, y, ms)`. |

## Left out

- File I/O is left out: `WriteSSPM(filename=…)` writing the file and returning `None`, and `ReadSSPM` opening a path. The model takes and returns byte sequences.
- SHA-1 is a parameter giving 20 bytes. The float32 encoding of a coordinate and Python's `round(x, 2)` test are given through `fromInt`, `snap` and the `Free` coordinate; float arithmetic is not modelled.
- Extras.HexToRgb: the white space `int()` strips and the decimal digits it accepts are those of Unicode 15.0, the database of Python 3.12. Interpreters with another Unicode version accept slightly different sets.
- Parser.SSPMParser.Notes2Text: modelled for integer grid coordinates only, since float formatting is not modelled; it requires grid notes when `Notes` is a list.
- The custom-data tag chain: as written, `id[0]` (an int) never equals a str, so no tag branch fires. Either `np.uint16` of the two length bytes raises inside the `try` (as for the writer's `00 00`), or the bytes spell a decimal number (such as `b'12'`) and the loop runs that many times, reading a variable string and one tag byte per pass until something raises or the count is exhausted. In both cases only the cursor moves, and the seek to the audio pointer overrides it. The model keeps that observable effect: two bytes read, then the seek.
- Version 1 files: the reader is modelled up to the `AttributeError` on `self.mapName`, which every version 1 read reaches after two newline-terminated strings. A missing newline makes the source loop forever at the end of the data; the model reports `NoNewline` instead. The `map_ID` and `map_name` the source assigns on the way are not stored (see Parser.SSPMParser.ReadSSPM below).
- Warnings, `debug` prints, `strict`, `map_data`, `mapper_count_float`, `custom_data` and the other scratch attributes the methods set but never read back are not modelled.
- The header's `Reserve` entry is stored by the source as a one-element tuple (trailing comma); the model stores the bytes.
- Parser.SSPMParser.ReadSSPM: when a version 2 read raises part-way, the source has already assigned the attributes read before the failure. Examples are `audio_bytes` and `cover_bytes` when the file ends before the definition count. The model assigns no section attribute on a failed read: it clears `audioBytes` and `coverBytes` and leaves the others unchanged. Its contract states `None` for audio and cover only after a bad signature or a version 1 file, where the source agrees. A version 1 read also assigns `map_ID` (commas removed) and `map_name` before its `AttributeError`; the model leaves both unchanged.
- Parser.SSPMParser.Load: stores the attributes of a successful read only. The partial assignments the source makes before a failure, including `audioBytes` and `coverBytes`, are not modelled.
- Parser.SSPMParser.WriteSSPM: on a failed write the source has already overwritten some attributes (e.g. `last_ms`, `song_name`); the model states only the header, the flags and `requires_mod` after a failure.
- WriteRead.WriteThenRead: proved for grid notes with coordinates 0-255 and times in uint32, `export_offset` 0, a one-byte difficulty, texts and mappers shorter than 32768 bytes (the reader's `np.int16` rejects the longer lengths the writer's 2-byte lengths allow) and payloads below 2^63 bytes.
- `NoteClassifier`, the rating stubs, the `__main__` script and the module-level print of the extras module are not part of this model.
- numpy before version 2 wraps instead of raising on an out-of-range conversion; the model follows the raising behaviour.
