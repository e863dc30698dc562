# UABEANext asset dump codec, modelled in Dafny

UABEANext is an editor for Unity asset files. It exports one asset, a tree of
typed fields described by a type template, in one of two forms:

- a UABE-style **text dump**, with one indented line per field;
- a **JSON dump** keyed by field names.

It also imports either form back as a sequence of calls on the binary asset
writer. Next to this codec sits `FileTypeDetector.DetectFileType`. It looks at
the first bytes of a stream and decides whether the stream holds a bundle, a
serialized assets file, or neither.

This project models four source files:

- `AssetTypeHelper.cs`: the helpers both directions share.
  - the table of type names and their value parsers;
  - `StartsWithSpace`, `TryParseValue`, `WriteValue`;
  - string escaping and unescaping;
  - the JSON token conversions;
  - the managed-reference helpers;
  - `ExpectAndReadField`.
- `AssetExport.cs`: the exporter, as class `ExportWriter.AssetExport`. Its `lines` field is the text it has written. Its methods are proved against the specification functions of `ExportCodec`.
- `AssetImport.cs`: the importer, as class `ImportReader.AssetImport`. It reads a sequence of input lines and writes to a `Sink`, which records the calls made on the asset writer. Its methods are proved against the functions of `ImportCodec`.
- `FileTypeDetector.cs`: the detector, as the method `FileTypeDetector.DetectFileType`. It is proved against the function `Detect` over the stream's bytes.

The modules, one per file:

- `Wrappers`: Option and Result.
- `NetStrings`: the .NET string operations the source relies on:
  - `IndexOf`;
  - `Trim`;
  - decimal rendering and parsing.
- `AssetsTypes`: the entities of AssetsTools.NET and the writer calls:
  - templates;
  - value trees;
  - the managed-reference registry;
  - the writer calls, as `Write` events;
  - the `Sink` class that records those calls.
- `JsonTree`: the JToken tree.
- `AssetTypeHelper`.
- `ExportCodec` and `ExportWriter`.
- `ImportCodec` and `ImportReader`.
- `BinaryLayout`: `Encode`, the writer calls that stand for a value tree in the binary layout.
- `ExportProperties`: the shape of the text dump.
- `TextLines`: facts about the text scan.
- `JsonRoundTrip` and `TextRoundTrip`: the two round trips.
- `FileTypeDetector`.
- `Findings`: the four defects listed below.

The import specifications take a `Mode`:

- `AsWritten` follows the source line for line, and the `AssetImport` methods are proved equal to it.
- `Corrected` repairs the four defects under "## Findings". The round-trip lemmas are stated for `Corrected`.

Two facts about the text dump that the model follows:

- The text dump writes no comment after `m_FileID` fields.
- Each byte-array element gets an index line `[i]` before its data line (`AssetExport.cs` lines 79-83).

## Model

| member | source | states |
|---|---|---|
| AssetTypeHelper.GetSupportedTypeNames | UABEANext4/Logic/ImportExport/AssetTypeHelper.cs:267-270 | the supported names are the twenty keys of the parser table |
| AssetTypeHelper.SupportedTypeNamesAreKeys | UABEANext4/Logic/ImportExport/AssetTypeHelper.cs:19-41 | every listed name is supported, no name is listed twice, and every supported name is listed |
| AssetTypeHelper.StartsWithSpaceUnique | UABEANext4/Logic/ImportExport/AssetTypeHelper.cs:46-49 | a type-line remainder matches at most one table name followed by a space, so `unsigned int` lines never also match `int` |
| AssetTypeHelper.TryParseValue | UABEANext4/Logic/ImportExport/AssetTypeHelper.cs:54-70 | an unknown type name fails; an integer type succeeds exactly when the text parses to a number in the type's range; bool succeeds exactly when the text is a boolean literal, with that value; a float type succeeds exactly on a float literal |
| AssetTypeHelper.TryParseIntRendering | UABEANext4/Logic/ImportExport/AssetTypeHelper.cs:21-40 | the decimal rendering of an in-range integer parses back to the same integer under its type name |
| AssetTypeHelper.WriteValue | UABEANext4/Logic/ImportExport/AssetTypeHelper.cs:75-124 | the writer gets exactly one call, with the value at the width of the type name, or nothing and the error (an unsupported name or a boxed value of the wrong kind) |
| AssetTypeHelper.WriteValueByTable | UABEANext4/Logic/ImportExport/AssetTypeHelper.cs:75-124 | for every supported name, the write switch agrees with the parser that the table gives that name |
| AssetTypeHelper.WriteValueAfterParse | UABEANext4/Logic/ImportExport/AssetTypeHelper.cs:54-124 | a value that `TryParseValue` produced for a name is always accepted by `WriteValue` for that name |
| AssetTypeHelper.WriteValueAliases | UABEANext4/Logic/ImportExport/AssetTypeHelper.cs:79-119 | aliases that share a parser (`int`/`SInt32`, `UInt8`/`unsigned char`, …) write identically |
| AssetTypeHelper.EscapeTextDumpString | UABEANext4/Logic/ImportExport/AssetTypeHelper.cs:129-135 | an escaped string contains no carriage return and no line feed, so it stays on one dump line |
| AssetTypeHelper.EscapeByChar | UABEANext4/Logic/ImportExport/AssetTypeHelper.cs:129-135 | the three chained replacements act character by character: backslash, CR and LF become two-character escapes |
| AssetTypeHelper.UnescapeTextDumpString | UABEANext4/Logic/ImportExport/AssetTypeHelper.cs:140-179 | the character loop with its escaping flag computes the unescaping function |
| AssetTypeHelper.EscapeRoundTrip | UABEANext4/Logic/ImportExport/AssetTypeHelper.cs:129-179 | unescaping an escaped string gives the original back, for every string |
| AssetTypeHelper.UnescapeAfterEscape | UABEANext4/Logic/ImportExport/AssetTypeHelper.cs:140-179 | unescaping an escaped prefix followed by any text gives the prefix back, followed by the unescaped text |
| AssetTypeHelper.UnescapeUnknownAndTrailing | UABEANext4/Logic/ImportExport/AssetTypeHelper.cs:150-176 | an unknown escape yields its character unchanged, and a trailing lone backslash is dropped |
| AssetTypeHelper.TokenAsString | UABEANext4/Logic/ImportExport/AssetTypeHelper.cs:199 | a string token reads as its text, null reads as absent, and only arrays and objects fail |
| AssetTypeHelper.TokenAsStringOrEmpty | UABEANext4/Logic/ImportExport/AssetTypeHelper.cs:199 | the `?? ""` fallback: null reads as the empty string |
| AssetTypeHelper.TokenAsInt | UABEANext4/Logic/ImportExport/AssetTypeHelper.cs:189-196 | a result is always in the target type's range; an out-of-range integer overflows; a bool reads as 1 or 0; a string is parsed; null, arrays and objects are invalid casts |
| AssetTypeHelper.TokenAsBool | UABEANext4/Logic/ImportExport/AssetTypeHelper.cs:188 | a bool reads as itself, an integer as nonzero, a string by `bool.Parse` (otherwise a format error), and null, arrays and objects fail |
| AssetTypeHelper.ConvertJTokenToValue | UABEANext4/Logic/ImportExport/AssetTypeHelper.cs:184-202 | value types outside 1..12 are refused; integer kinds box the in-range integer at their width; Bool boxes `TokenAsBool` |
| AssetTypeHelper.ConvertValueFieldToJToken | UABEANext4/Logic/ImportExport/AssetTypeHelper.cs:207-227 | a field without a value gives null; integers, strings and bools become the matching token; any other kind gives the string `invalid value` |
| AssetTypeHelper.ScalarJsonRoundTrip | UABEANext4/Logic/ImportExport/AssetTypeHelper.cs:184-227 | converting a field's scalar to a token and back under its value type gives back the same value |
| AssetTypeHelper.ValidVersionsAreOneAndTwo | UABEANext4/Logic/ImportExport/AssetTypeHelper.cs:232-235 | the only valid registry versions are 1 and 2 |
| AssetTypeHelper.CreateManagedReferencesJObject | UABEANext4/Logic/ImportExport/AssetTypeHelper.cs:240-248 | the type object has exactly three properties |
| AssetTypeHelper.ManagedReferencesJObjectKeys | UABEANext4/Logic/ImportExport/AssetTypeHelper.cs:240-248 | the type object's keys are `class`, `ns` and `asm`, in that order, and they hold the three names |
| AssetTypeHelper.ExpectAndReadField | UABEANext4/Logic/ImportExport/AssetTypeHelper.cs:253-262 | success exactly when the token is an object holding the key, with that key's value; a missing key names the field and its parent template; a non-object token fails |
| ExportCodec.AlignFlag | UABEANext4/Logic/ImportExport/AssetExport.cs:45-52 | the flag is `1` exactly when the template is aligned or holds a string |
| ExportCodec.ValueSuffix | UABEANext4/Logic/ImportExport/AssetExport.cs:88-101 | no value and non-scalar kinds give no suffix; a string gives its escaped text in quotes |
| ExportCodec.ByteLines | UABEANext4/Logic/ImportExport/AssetExport.cs:79-83 | a byte array of n bytes gives 2n element lines |
| ExportCodec.AddProp | UABEANext4/Logic/ImportExport/AssetExport.cs:236-242 | adding a property succeeds exactly when its key is new, and appends it; a repeated key is a duplicate-key error |
| ExportCodec.ByteItems | UABEANext4/Logic/ImportExport/AssetExport.cs:207-214 | a byte array's JSON form has one integer token per byte, in order |
| ExportWriter.AssetExport.DumpTextAsset | UABEANext4/Logic/ImportExport/AssetExport.cs:36-40 | the lines written are the text dump of the base field at depth 0, or the dump's error is returned |
| ExportWriter.AssetExport.RecurseTextDump | UABEANext4/Logic/ImportExport/AssetExport.cs:42-116 | the recursive writer appends exactly the text dump of the field at its depth |
| ExportWriter.AssetExport.WriteByteLines | UABEANext4/Logic/ImportExport/AssetExport.cs:79-83 | the byte loop appends exactly the index and data lines of the bytes |
| ExportWriter.AssetExport.TextDumpManagedReferencesRegistry | UABEANext4/Logic/ImportExport/AssetExport.cs:118-183 | the registry writer appends exactly the registry's dump, or fails on an unsupported version |
| ExportWriter.AssetExport.TextDumpReferencesV1 | UABEANext4/Logic/ImportExport/AssetExport.cs:122-154 | the version-1 loop appends exactly the version-1 object blocks, then the terminus block |
| ExportWriter.AssetExport.TextDumpReferencesV2 | UABEANext4/Logic/ImportExport/AssetExport.cs:155-178 | the version-2 loop appends exactly the version-2 object blocks, keyed by rid |
| ExportWriter.AssetExport.RecurseJsonDump | UABEANext4/Logic/ImportExport/AssetExport.cs:192-245 | the recursive JSON builder returns the JSON dump of the field |
| ExportWriter.AssetExport.JsonDumpManagedReferencesRegistry | UABEANext4/Logic/ImportExport/AssetExport.cs:247-301 | the registry builder returns the registry's JSON dump, or fails on an unsupported version |
| ExportProperties.TextDumpShape | UABEANext4/Logic/ImportExport/AssetExport.cs:42-183 | the dump only ever appends; every line it appends at depth d is d or more spaces followed by an alignment flag or an index bracket |
| ExportProperties.ByteArrayDump | UABEANext4/Logic/ImportExport/AssetExport.cs:72-84 | a byte array of n bytes dumps to 2n+2 lines: its header, its size line, and for each byte in order `[i]` then `0 UInt8 data = b` |
| ExportProperties.RegistryV1Dump | UABEANext4/Logic/ImportExport/AssetExport.cs:122-154 | a version-1 registry dumps its version line and one object line per object plus one for the terminus, and ends with the empty terminus block |
| ExportProperties.UnsupportedVersionDumps | UABEANext4/Logic/ImportExport/AssetExport.cs:179-182 | a registry version other than 1 and 2 fails both the text and the JSON dump |
| ImportCodec.Unwind | UABEANext4/Logic/ImportExport/AssetImport.cs:68-75 | popping to a depth leaves the stack's prefix of that height, and writes one alignment per popped `true` |
| ImportCodec.StringLeaf | UABEANext4/Logic/ImportExport/AssetImport.cs:87-94 | a string line reads exactly when its first quote comes before its last; otherwise the substring call fails with an out-of-range error |
| ImportCodec.LeafWritesTotal | UABEANext4/Logic/ImportExport/AssetImport.cs:95-117 | a table-typed leaf line never throws: it writes its parsed value or nothing |
| ImportCodec.ByteValuesFirstError | UABEANext4/Logic/ImportExport/AssetImport.cs:206-217 | a byte array's conversion fails with the error of its first element that is not a byte |
| ImportCodec.RidWrites | UABEANext4/Logic/ImportExport/AssetImport.cs:274-281 | a version-1 rid writes nothing and a later version's rid writes one 64-bit integer |
| ImportReader.AssetImport.ReadLine | UABEANext4/Logic/ImportExport/AssetImport.cs:57-59 | the next input line is returned and consumed, or none at the end of the input |
| ImportReader.AssetImport.ImportTextAsset | UABEANext4/Logic/ImportExport/AssetImport.cs:31-50 | the writer calls are those of the scan of the remaining lines, or the exception that stopped the scan |
| ImportReader.AssetImport.ImportTextAssetLoop | UABEANext4/Logic/ImportExport/AssetImport.cs:52-129 | the line loop with its alignment stack produces exactly the scan's writes |
| ImportReader.AssetImport.CountDepth | UABEANext4/Logic/ImportExport/AssetImport.cs:61-63 | the depth is the number of leading spaces |
| ImportReader.AssetImport.PopAlignments | UABEANext4/Logic/ImportExport/AssetImport.cs:68-75 | the pop loop leaves the stack and the writes that `Unwind` describes |
| ImportReader.AssetImport.WriteLeaf | UABEANext4/Logic/ImportExport/AssetImport.cs:87-117 | a leaf line writes its string or its first matching, parsable table value, exactly as the leaf specification says, or fails with its error |
| ImportReader.AssetImport.ImportJsonAsset | UABEANext4/Logic/ImportExport/AssetImport.cs:131-153 | the writer calls are those of the template-driven JSON import, or the exception that stopped it |
| ImportReader.AssetImport.RecurseJsonImport | UABEANext4/Logic/ImportExport/AssetImport.cs:155-250 | the recursive importer writes exactly what the import specification gives for the template and token |
| ImportReader.AssetImport.WriteJsonValue | UABEANext4/Logic/ImportExport/AssetImport.cs:198-225 | strings, byte arrays (copied into a buffer) and converted scalars are written as the value specification says |
| ImportReader.AssetImport.WriteByteArray | UABEANext4/Logic/ImportExport/AssetImport.cs:206-217 | a JSON byte array is written as its element count and then its bytes exactly when every element converts to a byte; otherwise nothing is written and the first element's conversion error is returned |
| ImportReader.AssetImport.RecurseJsonImportArray | UABEANext4/Logic/ImportExport/AssetImport.cs:228-243 | the element loop writes the count and then each element's import |
| ImportReader.AssetImport.JsonImportManagedReferencesRegistry | UABEANext4/Logic/ImportExport/AssetImport.cs:252-322 | the registry importer checks the version and the RefIds array, then writes the version, the count, the entries and the terminus or alignment |
| ImportReader.AssetImport.ImportRid | UABEANext4/Logic/ImportExport/AssetImport.cs:274-281 | a version-1 rid must equal the entry's index and is not written; later versions write it |
| ImportReader.AssetImport.WriteValueByType | UABEANext4/Logic/ImportExport/AssetImport.cs:332-372 | a converted scalar is written at its kind's width; a boxed value of another kind is an invalid cast; other kinds are unsupported |
| JsonRoundTrip.DumpItemsShape | UABEANext4/Logic/ImportExport/AssetExport.cs:197-216 | an array dumps to one JSON element per child, in order |
| JsonRoundTrip.DumpPropsShape | UABEANext4/Logic/ImportExport/AssetExport.cs:236-242 | a struct dumps to one property per child, keyed by its name, in child order, no key twice |
| JsonRoundTrip.DumpRefsShape | UABEANext4/Logic/ImportExport/AssetExport.cs:253-295 | a registry dumps to one object per reference, in order, holding its type triple and its data |
| JsonRoundTrip.JsonDumpRoundTrip | UABEANext4/Logic/ImportExport/AssetImport.cs:131-322 | importing the JSON dump of a well-formed tree with the corrected importer writes the tree's serialized form |
| TextRoundTrip.RegistryV1RoundTrip | UABEANext4/Logic/ImportExport/AssetImport.cs:52-129 | the text dump of a version-1 registry scans back to its serialized form |
| TextRoundTrip.RegistryV2RoundTrip | UABEANext4/Logic/ImportExport/AssetImport.cs:52-129 | the text dump of a version-2 registry scans back to its serialized form |
| TextRoundTrip.TextDumpRoundTrip | UABEANext4/Logic/ImportExport/AssetImport.cs:31-129 | the text dump of a well-formed tree succeeds, and the corrected import of its lines, which closes the levels still open at the end of the input, writes exactly the tree's serialized form |
| FileTypeDetector.Int32RoundTrip | UABEANext4/Util/FileTypeDetector.cs:121 | big-endian decoding inverts big-endian encoding for every 32-bit integer |
| FileTypeDetector.ReadVersionReads | UABEANext4/Util/FileTypeDetector.cs:125-134 | the version loop reads at most 256 characters, one per byte, and stops at a zero byte, at the end of the stream or at the length cap |
| FileTypeDetector.KeptSplits | UABEANext4/Util/FileTypeDetector.cs:135-136 | the two regex replacements split the candidate version, and the "empty" part is empty exactly when every character is a letter, digit, dot or newline |
| FileTypeDetector.ShortStreamUnknown | UABEANext4/Util/FileTypeDetector.cs:114-117 | a stream shorter than 0x20 bytes is Unknown, whatever it holds |
| FileTypeDetector.BundleSignatureWins | UABEANext4/Util/FileTypeDetector.cs:138-141 | the `UnityFS` signature classifies a long enough stream as a bundle, whatever the version bytes say |
| FileTypeDetector.VersionOffset | UABEANext4/Util/FileTypeDetector.cs:118-123 | the version string is read at 0x14 when the format number is below 0x16 (including every negative one) and at 0x30 otherwise |
| FileTypeDetector.AssetsFileExactly | UABEANext4/Util/FileTypeDetector.cs:138-146 | a stream is an assets file exactly when it is not a bundle, its format is below 0xFF, and its version has only version characters and at least five of them |
| FileTypeDetector.DetectFileType | UABEANext4/Util/FileTypeDetector.cs:106-147 | the reader-based method returns the classification of the stream's bytes |
| FileTypeDetector.ReadVersionLoop | UABEANext4/Util/FileTypeDetector.cs:125-134 | the byte loop reads the version string that the version function describes |
| Findings.ArrayImportAsWritten | UABEANext4/Logic/ImportExport/AssetImport.cs:218-224 | the JSON import of any non-byte array template fails with an unsupported-value-type error |
| Findings.VectorJsonAsWritten | UABEANext4/Logic/ImportExport/AssetImport.cs:218-243 | the JSON dump of a one-element int vector is refused by the importer as written, and read back by the corrected one |
| Findings.RegistryV1ImportAsWritten | UABEANext4/Logic/ImportExport/AssetImport.cs:274-276 | the JSON dump of a non-empty version-1 registry is refused by the importer as written, which asks for the rid the exporter never writes |
| Findings.ElementAlignAsWritten | UABEANext4/Logic/ImportExport/AssetImport.cs:65-66 | a two-element array of aligned one-byte structs dumps and imports, as written, without the first element's alignment; the corrected import writes it |
| Findings.PairImportCorrected | UABEANext4/Logic/ImportExport/AssetImport.cs:65-75 | with index lines pushing their own entry, the first element's alignment is written straight after its byte, and the last element's when the input ends |
| Findings.TrailingAlignAsWritten | UABEANext4/Logic/ImportExport/AssetImport.cs:57-59 | an aligned struct holding one `UInt8` dumps to two lines; the import as written writes only the byte, and the corrected import also writes the struct's alignment |

## Left out

- TokenAsInt, TokenAsBool, ConvertJTokenToValue and ByteValues refuse a float token for an integer or bool kind with an invalid-cast error. Newtonsoft's explicit casts convert such a token instead, rounding it. On that input these members are stricter than the source.
- Floating-point values are opaque tokens (`VFloat`, `JFloat`, `BoxFloat`, `BoxDouble`). Float parsing, rendering and arithmetic are not modelled; a float token only has to be a float literal.
- TypeRefWrites assumes that AssetTypeReference.WriteAsset writes the class, namespace and assembly as three count-prefixed strings, each aligned. The AssetsTools.NET writer is not part of this model.
- BinaryLayout.Encode is the reference serialized form that both round trips are stated against. The AssetsTools.NET writer that produces real bytes is not part of this model.
- Stream input is a sequence of lines. StreamReader's line splitting and decoding, and StreamWriter's encoding and flushing, are left out.
- DumpJsonAsset's printing of the JSON tree to text, and the JSON parse before import, are left out. The model works on the token tree.
- Raw dumps (`DumpRawAsset`, `ImportRawAsset`) are byte copies with no logic, and they are left out, as is `Dispose`.
- The `Debug.WriteLine` warning of the text import is left out. It has no effect on the result.
- Exceptions become `Error` values. The partial output of an import that throws is dropped, as the source's null return drops it.
- ExportWriter.AssetExport.DumpTextAsset and the text-dump methods it calls: on an error, the contract states the error but not which lines are in the output. The source leaves every line written before a `NotSupportedException` in the stream.
- `StartsWith` in `StartsWithSpace` is culture-sensitive in .NET. It is modelled as an exact prefix test.
- `RefTypeManager` becomes the `Resolver` parameter, a function from a type triple to its template.
- The `uabeFlavor` flag of RecurseJsonDump is passed down but never read, so it is not modelled.
- FileTypeDetector's path-based overload, its file cache and its statistics involve the file system and are left out. `BaseStream.Length` is the length of the byte sequence.
- FileTypeDetector.ReadVersionLoop reads a byte as the character of the same code, as the `(char)` cast does.

## Findings

| source | as written | input that shows it | evidently intended | confidence | as-written member | corrected member |
|---|---|---|---|---|---|---|
| UABEANext4/Logic/ImportExport/AssetImport.cs:218-224 | a non-byte array template reaches `ConvertJTokenToValue(Array, …)`, which throws, so the element loop at lines 228-243 can never run | the JSON dump `{"Array":[7]}` of a one-element int vector | an array template skips the scalar conversion and goes to the element loop | not executed | Findings.VectorJsonAsWritten | JsonRoundTrip.JsonDumpRoundTrip |
| UABEANext4/Logic/ImportExport/AssetImport.cs:274-276 | the import reads a `rid` from every registry entry, but the exporter writes none for version 1 (AssetExport.cs lines 267-275) | any version-1 registry with one object, dumped to JSON | a version-1 entry may omit its rid, which is its index | not executed | Findings.RegistryV1ImportAsWritten | JsonRoundTrip.JsonDumpRoundTrip |
| UABEANext4/Logic/ImportExport/AssetImport.cs:65-66 | an index line `[i]` is skipped without touching the alignment stack, so an aligned array element's entry is popped only when the next shallower line arrives | an array of two aligned structs of one `UInt8` each, dumped as text | each element's alignment is written when the element ends | not executed | Findings.ElementAlignAsWritten | Findings.PairImportCorrected |
| UABEANext4/Logic/ImportExport/AssetImport.cs:57-59 | at the end of the input the loop returns without popping the alignment stack, so the alignment of every aligned field still open is never written | a dump whose last field is an aligned struct holding one `UInt8` | the end of the input closes every open level, writing the alignments still pending | not executed | Findings.TrailingAlignAsWritten | TextRoundTrip.TextDumpRoundTrip |
