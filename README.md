# DICOM reading, writing, querying and anonymization core, in Dafny

This project models the core of a DICOM toolkit and of a file finder built on it:

- **Element reading** (`element_reader.dfy`, module `ElementReading`) covers the element
  reader for the three uncompressed layouts of DICOM PS3.5 sections 7.1.2 and 7.1.3:
  explicit VR little endian, implicit VR little endian (with the tolerance for elements
  that carry a VR anyway), and explicit VR big endian. It also covers the skippers and
  the read-to-end loops. Pure functions (`ElementAt`, `SkipEndAt`, `ElementsFrom`) say
  what a read yields and where it leaves the cursor. The methods do the read step by step
  on a `DicomBinaryReader` (module `BinaryStreams`) and are proved to agree with them.
- **Length writing** (`length_writer.dfy`, `LengthWriting`) covers the length-field
  writer: the little-endian, big-endian and VR/syntax-aware writers. It proves that what
  the writer emits, the reader's length decoding reads back.
- **File reading** (`file_reader.dfy`, `DicomFileReading`) covers the finder's file
  reader. It classifies the 128-byte preamble and the "DICM" prefix of DICOM PS3.10
  section 7.1, then looks up the first element with a given group and element, meta
  information first.
- **String parsing** (`string_parser.dfy`, `StringDataParsing`) covers the string
  parsers for Age String, Integer String, Decimal String (field count), Date, Date Time
  and Time.
- **Association handling** (`association_service.dfy`, `AssociationServices`) covers the
  default handlers of the association service for the six association PDUs of DICOM
  PS3.8 section 9.2, and the events they raise.
- **Directory search** (`dicom_directory.dfy`, `DicomDirectorySearch`) covers the
  finder's recursive directory search, with its one-file and value-filter options and
  its exception handling.
- **Anonymization** (`anonymization_queue.dfy`, `Anonymization`) covers the
  anonymization queue: building the queue from the settings, running it, and the
  progress it reports.
- **Series query** (`cfind_series_iod.dfy`, `CFindSeries`) covers the series-level
  C-FIND identifier and its typed properties over the data set.

Shared definitions live in `wrappers.dfy` (`Option`, `Result`), `dicom_core.dfy` (bytes,
tags, VRs, transfer syntaxes, elements) and `byte_order.dfy` (little- and big-endian
integers).

Collaborators whose code is not part of this model are parameters:

- the tag dictionary;
- the indefinite-length sequence scanner;
- the file meta-information reader;
- an element's `ToString`;
- the file system (a tree of directories with a per-path reader);
- `DICOMObject.Read`;
- the presentation-context negotiation;
- the clock;
- `DateTime.TryParseExact` and `double.TryParse`.

Socket sends and releases are recorded as effects in the order they happen.

## Model

| member | source | states |
|---|---|---|
| ElementReading.ReadElementExplicitLittleEndian | EvilDICOM/EvilDICOM/Core/IO/Reading/DICOMElementReader.cs:20-39 | returns exactly the element `ElementAt(ExplicitLittleEndian, …)` specifies, with the cursor just past it, or the same error |
| ElementReading.ExplicitReadLayout | EvilDICOM/EvilDICOM/Core/IO/Reading/DICOMElementReader.cs:20-39 | an explicit little-endian read takes the tag, then the VR, then the length field of that VR's class, then exactly `length` data bytes (or the items plus the 8-byte delimiter for the undefined length); the element has that tag and VR |
| ElementReading.ReadElementImplicitLittleEndian | EvilDICOM/EvilDICOM/Core/IO/Reading/DICOMElementReader.cs:46-58 | agrees with `ElementAt(ImplicitLittleEndian, …)`: element and cursor, or the error |
| ElementReading.ImplicitReadLayout | EvilDICOM/EvilDICOM/Core/IO/Reading/DICOMElementReader.cs:46-58 | when the peek finds no VR code, no VR bytes are consumed: a 4-byte length follows the tag, and the VR is the dictionary's VR for the tag |
| ElementReading.CheckForExplicitness | EvilDICOM/EvilDICOM/Core/IO/Reading/DICOMElementReader.cs:68-78 | a VR code after the tag is consumed and returned; without one the cursor does not move |
| ElementReading.ImplicitPeekReadsExplicit | EvilDICOM/EvilDICOM/Core/IO/Reading/DICOMElementReader.cs:46-78 | when the two bytes after the tag are a VR code, the implicit reader yields exactly what the explicit little-endian reader yields |
| ElementReading.ReadElementExplicitBigEndian | EvilDICOM/EvilDICOM/Core/IO/Reading/DICOMElementReader.cs:85-92 | agrees with `ElementAt(ExplicitBigEndian, …)`: element and cursor, or the error |
| ElementReading.BigEndianReadLayout | EvilDICOM/EvilDICOM/Core/IO/Reading/DICOMElementReader.cs:85-92 | the big-endian read decodes the tag and the length most significant byte first |
| ElementReading.SkipElementExplicitLittleEndian | EvilDICOM/EvilDICOM/Core/IO/Reading/DICOMElementReader.cs:96-110 | leaves the cursor where `SkipEndAt` says, and builds no element |
| ElementReading.SkipElementImplicitLittleEndian | EvilDICOM/EvilDICOM/Core/IO/Reading/DICOMElementReader.cs:112-125 | reads the 4-byte length straight after the tag, with no peek for a VR, and moves the cursor where `SkipEndAt` says |
| ElementReading.SkipElementExplicitBigEndian | EvilDICOM/EvilDICOM/Core/IO/Reading/DICOMElementReader.cs:127-141 | leaves the cursor where `SkipEndAt` says, with big-endian tag and length |
| ElementReading.SkipAgreesWithRead | EvilDICOM/EvilDICOM/Core/IO/Reading/DICOMElementReader.cs:96-141 | a skip moves the cursor exactly as far as the read does; for the implicit layout only when the element carries no VR code |
| ElementReading.SkipUndefinedLength | EvilDICOM/EvilDICOM/Core/IO/Reading/DICOMElementReader.cs:96-141 | with length -1 the skip passes the scanned sequence length plus the 8-byte delimitation item, and fails when the scan finds no end |
| ElementReading.LayoutOf | EvilDICOM/EvilDICOM/Core/IO/Reading/DICOMElementReader.cs:147-163 | implicit VR little endian goes to the implicit reader and explicit VR big endian to the big-endian reader, each if and only if; every other syntax goes to the explicit little-endian reader |
| ElementReading.ReadAllElements | EvilDICOM/EvilDICOM/Core/IO/Reading/DICOMElementReader.cs:147-163 | returns `ElementsFrom` for the layout of the syntax, and on success leaves the cursor at or past the end |
| ElementReading.ReadAllElementsImplicitLittleEndian | EvilDICOM/EvilDICOM/Core/IO/Reading/DICOMElementReader.cs:170-178 | reads one element per iteration until the position reaches the length, in stream order: the result is `ElementsFrom(ImplicitLittleEndian, …)` |
| ElementReading.ReadAllElementsExplicitBigEndian | EvilDICOM/EvilDICOM/Core/IO/Reading/DICOMElementReader.cs:185-193 | the same loop with the big-endian reader: `ElementsFrom(ExplicitBigEndian, …)` |
| ElementReading.ReadAllElementsExplicitLittleEndian | EvilDICOM/EvilDICOM/Core/IO/Reading/DICOMElementReader.cs:200-208 | the same loop with the explicit little-endian reader: `ElementsFrom(ExplicitLittleEndian, …)` |
| ElementReading.ElementsFromStartsAtCursor | EvilDICOM/EvilDICOM/Core/IO/Reading/DICOMElementReader.cs:170-208 | with bytes left, the first element read is the one at the cursor, and the rest are read from where it ends |
| ElementReading.ElementCountBound | EvilDICOM/EvilDICOM/Core/IO/Reading/DICOMElementReader.cs:170-208 | every element takes at least 8 bytes, so the loop yields at most one element per 8 bytes left |
| LengthWriting.WriteLittleEndian | EvilDICOM/EvilDICOM/Core/IO/Writing/LengthWriter.cs:11-24 | width 2 writes the low 16 bits, least significant first; width 4 writes all 32 bits; any other width writes nothing |
| LengthWriting.WriteBigEndian | EvilDICOM/EvilDICOM/Core/IO/Writing/LengthWriter.cs:54-68 | width 2 or 4 writes the bytes most significant first; any other width fails (the null array is reversed) and writes nothing |
| LengthWriting.LengthFieldBytes | EvilDICOM/EvilDICOM/Core/IO/Writing/LengthWriter.cs:26-52 | the field is 4 bytes under implicit syntax whatever the VR, 2 zero bytes plus 4 for ExplicitLong, 2 for ExplicitShort; it fails exactly for an ExplicitShort length above 65536; under big endian only the length bytes are reversed, not the reserved ones |
| LengthWriting.Write | EvilDICOM/EvilDICOM/Core/IO/Writing/LengthWriter.cs:26-52 | writes `LengthFieldBytes`, or writes nothing and fails with ArgumentOutOfRange |
| LengthWriting.LengthRoundTrip | EvilDICOM/EvilDICOM/Core/IO/Writing/LengthWriter.cs:26-52 | every length the field can hold is read back unchanged by the element reader's length decoding, in the byte order of the syntax |
| LengthWriting.ShortLength65536Wraps | EvilDICOM/EvilDICOM/Core/IO/Writing/LengthWriter.cs:38-41 | the boundary 65536 passes the check, is written as 00 00 and reads back as 0 |
| LengthWriting.CheckedLengthFieldBytes | EvilDICOM/EvilDICOM/Core/IO/Writing/LengthWriter.cs:38-41 | the corrected check: an ExplicitShort field fails exactly for lengths outside 0..65535 |
| LengthWriting.CheckedLengthRoundTrip | EvilDICOM/EvilDICOM/Core/IO/Writing/LengthWriter.cs:26-52 | with the corrected check every length that is written reads back unchanged |
| DicomFileReading.PreambleClassification | DicomFinder/Source/DicomFileReader.cs:33-59 | None if and only if the file has at most 132 bytes; WrongPreambleDicm if and only if bytes 128..131 are not "DICM", whatever the preamble; MismatchPreamble128 if and only if "DICM" follows a preamble with a non-zero byte; Ok if and only if 128 zero bytes then "DICM" |
| DicomFileReading.ReadPreamble | DicomFinder/Source/DicomFileReader.cs:33-59 | returns the status `PreambleAt` gives; consumes nothing for None and exactly 132 bytes otherwise |
| DicomFileReading.PreambleFromStartSucceeds | DicomFinder/Source/DicomFileReader.cs:36-44 | from the first byte, the classification never fails |
| DicomFileReading.FirstMatch | DicomFinder/Source/DicomFileReader.cs:28 | the index of the first element whose tag prints as the group and element, and none exactly when no element does |
| DicomFileReading.MetaElementsFirst | DicomFinder/Source/DicomFileReader.cs:22-28 | a matching meta element is found before any element of the data set |
| DicomFileReading.NoElementsWithoutPrefix | DicomFinder/Source/DicomFileReader.cs:20-30 | with a status other than Ok or MismatchPreamble128, nothing is read and the value is null |
| DicomFileReading.ValueOfFirstElementWithTag | DicomFinder/Source/DicomFileReader.cs:12-31 | once read, a value is returned if and only if some meta or data-set element carries the tag, and it is the value of the first such element |
| DicomFileReading.Read | DicomFinder/Source/DicomFileReader.cs:12-31 | returns `FileValue`: the value and status the lemmas above characterise |
| StringDataParsing.ParseAgeString | EvilDICOM/EvilDICOM/Core/IO/Data/StringDataParser.cs:12-36 | null or empty gives null; otherwise the number from offsets 1 to 3 and the unit from offset 4, or the exception those reads throw |
| StringDataParsing.AgeStringRefusedAsWritten | EvilDICOM/EvilDICOM/Core/IO/Data/StringDataParser.cs:19-20 | every well-formed four-character Age String makes the parse fail |
| StringDataParsing.AgeStringRoundTrip | EvilDICOM/EvilDICOM/Core/IO/Data/StringDataParser.cs:19-34 | with the corrected offsets, the Age String of a number and unit parses back to that number and unit |
| StringDataParsing.FieldCount | EvilDICOM/EvilDICOM/Core/IO/Data/StringDataParser.cs:102-115 | null or empty gives no values; otherwise one value per backslash plus one |
| StringDataParsing.ParseIntegerString | EvilDICOM/EvilDICOM/Core/IO/Data/StringDataParser.cs:102-115 | the array holds, in order, each backslash-separated field with spaces removed, parsed, or 0 where the parse fails |
| StringDataParsing.ParseFields | EvilDICOM/EvilDICOM/Core/IO/Data/StringDataParser.cs:109-113 | the new array has one entry per field, and entry i is field i parsed, or the default value where the parse fails |
| StringDataParsing.ParseDecimalString | EvilDICOM/EvilDICOM/Core/IO/Data/StringDataParser.cs:85-99 | the same field split, with the given number parser, or 0 where it fails |
| StringDataParsing.IntegerStringRoundTrip | EvilDICOM/EvilDICOM/Core/IO/Data/StringDataParser.cs:108-112 | integers joined with backslashes parse back to the same integers |
| StringDataParsing.ParseFormattedInt32 | EvilDICOM/EvilDICOM/Core/IO/Data/StringDataParser.cs:112 | the decimal text of a 32-bit integer parses back to it |
| StringDataParsing.SplitCount | EvilDICOM/EvilDICOM/Core/IO/Data/StringDataParser.cs:108 | splitting yields one field more than there are separators |
| StringDataParsing.SplitJoin | EvilDICOM/EvilDICOM/Core/IO/Data/StringDataParser.cs:108 | splitting a join of separator-free fields gives back the fields |
| StringDataParsing.JoinSplit | EvilDICOM/EvilDICOM/Core/IO/Data/StringDataParser.cs:108 | joining the fields of a split with the separator gives back the string |
| StringDataParsing.ParseDate | EvilDICOM/EvilDICOM/Core/IO/Data/StringDataParser.cs:38-52 | null exactly for null or empty input or when the `yyyyMMdd` format refuses it; otherwise the date that format gives |
| StringDataParsing.ParseDateTime | EvilDICOM/EvilDICOM/Core/IO/Data/StringDataParser.cs:54-83 | null exactly for null or empty input or when no listed format accepts it; otherwise the date the first accepting format gives |
| StringDataParsing.ParseTime | EvilDICOM/EvilDICOM/Core/IO/Data/StringDataParser.cs:117-145 | null exactly for null or empty input; `DateTime.MinValue` when no listed format accepts it; otherwise the time the first accepting format gives |
| StringDataParsing.ParseInt32 | EvilDICOM/EvilDICOM/Core/IO/Data/StringDataParser.cs:112 | a field holding any character that is no digit, white space or sign does not parse |
| StringDataParsing.FirstFormat | EvilDICOM/EvilDICOM/Core/IO/Data/StringDataParser.cs:72-73 | the first format in the list that accepts the text, and none exactly when no format does |
| StringDataParsing.FirstAcceptingFormatWins | EvilDICOM/EvilDICOM/Core/IO/Data/StringDataParser.cs:62-81 | the value parsed is the one of the first accepting format |
| AssociationServices.EventBeforeChange | EvilDICOM/EvilDICOM/Network/Services/AssociationService.cs:29-106 | every handler only appends to what has been observed; its first effect is its event, seen in the state before any change, if and only if the event has subscribers; no handler notifies twice |
| AssociationServices.RequestAcceptedIffContexts | EvilDICOM/EvilDICOM/Network/Services/AssociationService.cs:36-56 | an accept carrying the negotiated contexts is sent if and only if there are some, and then the state becomes established and the association keeps the negotiated contexts and the request's user information; otherwise a reject is sent, the state becomes closing, and contexts and user information stay |
| AssociationServices.AcceptDrainsQueueInOrder | EvilDICOM/EvilDICOM/Network/Services/AssociationService.cs:58-84 | the contexts become the final contexts; with some agreed, the user information becomes the accept's, the state becomes open, every queued message is sent, in queue order, and the queue ends empty; without them the association is released and nothing is sent |
| AssociationServices.ReleasingHandlers | EvilDICOM/EvilDICOM/Network/Services/AssociationService.cs:29-106 | abort, reject and release response release the association and send nothing; a release request sends a release response, then releases; no field changes |
| AssociationServices.AssociationService.Raise | EvilDICOM/EvilDICOM/Network/Services/AssociationService.cs:126-192 | the subscribers are notified only when there are any; nothing else changes |
| AssociationServices.AssociationService.AbortReceived | EvilDICOM/EvilDICOM/Network/Services/AssociationService.cs:29-34 | the association's new fields and effects are `Handle` of an abort |
| AssociationServices.AssociationService.AssociationRequestReceived | EvilDICOM/EvilDICOM/Network/Services/AssociationService.cs:36-56 | the association's new fields and effects are `Handle` of the request |
| AssociationServices.AssociationService.AssociationAcceptanceReceived | EvilDICOM/EvilDICOM/Network/Services/AssociationService.cs:58-84 | the drain loop leaves the association as `Handle` of the accept says |
| AssociationServices.AssociationService.SendQueued | EvilDICOM/EvilDICOM/Network/Services/AssociationService.cs:68-78 | every queued message is sent as P-DATA, in queue order; the queue ends empty and no other field changes |
| AssociationServices.AssociationService.AssociationRejectionReceived | EvilDICOM/EvilDICOM/Network/Services/AssociationService.cs:86-91 | the association's new fields and effects are `Handle` of a reject |
| AssociationServices.AssociationService.ReleaseRequestReceived | EvilDICOM/EvilDICOM/Network/Services/AssociationService.cs:93-99 | the association's new fields and effects are `Handle` of a release request |
| AssociationServices.AssociationService.ReleaseResponseReceived | EvilDICOM/EvilDICOM/Network/Services/AssociationService.cs:101-106 | the association's new fields and effects are `Handle` of a release response |
| DicomDirectorySearch.DicomDirectory.constructor | DicomFinder/Source/DicomDirectory.cs:17-21 | the two options are kept as given |
| DicomDirectorySearch.FilesFound | DicomFinder/Source/DicomDirectory.cs:56-59 | in one-file mode at most one row is added per directory's files, and only for its first path |
| DicomDirectorySearch.FilesFoundSound | DicomFinder/Source/DicomDirectory.cs:28-45 | every row added for a directory's files is one of its paths, carries what the reader returned for it, and passes the filter |
| DicomDirectorySearch.FoundSound | DicomFinder/Source/DicomDirectory.cs:23-71 | every row a recursive search adds carries what the reader returned for its path, and its value passes the filter |
| DicomDirectorySearch.EveryPresentValueAdded | DicomFinder/Source/DicomDirectory.cs:28-45 | outside one-file mode, and with no read throwing, every file whose value is present and passes the filter (when it is on) is added |
| DicomDirectorySearch.FilterKeepsMatchingValues | DicomFinder/Source/DicomDirectory.cs:34-40 | with the filter "ct" over files whose values are CT, MR and CT, exactly the two CT files are added, in directory order |
| DicomDirectorySearch.FoundReadsFileValue | DicomFinder/Source/DicomDirectory.cs:28-31 | with the file reader as the lookup, every row names a file that opens and carries the value and status `DicomFileReader.Read` gives for its bytes |
| DicomDirectorySearch.ExceptionAbandonsRest | DicomFinder/Source/DicomDirectory.cs:26-70 | a read that throws ends the directory's search: only rows of the files before it remain |
| DicomDirectorySearch.ExceptionSkipsSubdirectories | DicomFinder/Source/DicomDirectory.cs:62-70 | after a throw among the files, no subdirectory is searched |
| DicomDirectorySearch.OneFilePerDirectory | DicomFinder/Source/DicomDirectory.cs:56-59 | in one-file mode the search adds at most one row per directory of the tree |
| DicomDirectorySearch.DicomDirectory.SearchFiles | DicomFinder/Source/DicomDirectory.cs:28-60 | appends the rows `FilesFound` gives, and reports whether a read threw |
| DicomDirectorySearch.DicomDirectory.Search | DicomFinder/Source/DicomDirectory.cs:23-71 | appends exactly the rows `Found` gives: the directory's files, then each subdirectory in turn |
| Anonymization.AnonymizationQueue.constructor | EvilDICOM/EvilDICOM/Anonymization/AnonymizationQueue.cs:17-20 | the queue starts empty |
| Anonymization.BuildQueue | EvilDICOM/EvilDICOM/Anonymization/AnonymizationQueue.cs:22-45 | returns a new queue holding `Planned` of the settings and the objects read from the files, in file order |
| Anonymization.RegisterObjects | EvilDICOM/EvilDICOM/Anonymization/AnonymizationQueue.cs:26-35 | when study-ID anonymization is on, the study-ID anonymizer is given every object read, in file order; likewise the UID anonymizer when UID anonymization is on |
| Anonymization.PlannedLength | EvilDICOM/EvilDICOM/Anonymization/AnonymizationQueue.cs:22-45 | the queue holds two anonymizers plus one per option switched on |
| Anonymization.PlannedEnds | EvilDICOM/EvilDICOM/Anonymization/AnonymizationQueue.cs:42-43 | the queue always ends with the patient-ID anonymizer, then the date anonymizer |
| Anonymization.PlannedPresenceAndOrder | EvilDICOM/EvilDICOM/Anonymization/AnonymizationQueue.cs:26-43 | the kinds appear in the fixed order study ID, UID, name, private tag, profile, patient ID, date, none twice, and a kind is present if and only if the settings ask for it |
| Anonymization.AnonymizationQueue.Anonymize | EvilDICOM/EvilDICOM/Anonymization/AnonymizationQueue.cs:61-70 | applies every anonymizer once, in queue order, and reports `ReportedProgress` after each; the queue is unchanged |
| Anonymization.AnonymizationQueue.RaiseProgressUpdated | EvilDICOM/EvilDICOM/Anonymization/AnonymizationQueue.cs:96-102 | the report is passed on; nothing else changes |
| Anonymization.CalculateProgress | EvilDICOM/EvilDICOM/Anonymization/AnonymizationQueue.cs:83-86 | the floor of `i` as a percentage of the total, at most 100 when `i` is at most the total and below 100 when below it |
| Anonymization.ProgressMonotone | EvilDICOM/EvilDICOM/Anonymization/AnonymizationQueue.cs:83-86 | more operations done never means less progress |
| Anonymization.ReportsOrderedBelow100 | EvilDICOM/EvilDICOM/Anonymization/AnonymizationQueue.cs:61-70 | the percents after each anonymizer never decrease and never reach 100 |
| Anonymization.ReportedProgress | EvilDICOM/EvilDICOM/Anonymization/AnonymizationQueue.cs:67 | each value reported is the percent divided by 100 again |
| Anonymization.ReportedProgressBelowOne | EvilDICOM/EvilDICOM/Anonymization/AnonymizationQueue.cs:67 | every reported value is a fraction below 1; with two anonymizers the reports are 0.33 and 0.66 |
| CFindSeries.CFindSeriesIOD.constructor | EvilDICOM/EvilDICOM/Network/DIMSE/IOD/CFindSeriesIOD.cs:16-26 | the data set of a default query is `DefaultQuery` |
| CFindSeries.DefaultQueryValues | EvilDICOM/EvilDICOM/Network/DIMSE/IOD/CFindSeriesIOD.cs:16-26 | a default query has level SERIES; its UIDs, description and modality are present but empty; its series number, instance count, date and time are null |
| CFindSeries.ParseLevel | EvilDICOM/EvilDICOM/Network/DIMSE/IOD/CFindSeriesIOD.cs:38 | a level is found exactly for a level's name, and it is the level of that name |
| CFindSeries.LevelAt | EvilDICOM/EvilDICOM/Network/DIMSE/IOD/CFindSeriesIOD.cs:30-39 | the getter succeeds if and only if the element holds the name of a level, and returns that level |
| CFindSeries.MissingLevelFails | EvilDICOM/EvilDICOM/Network/DIMSE/IOD/CFindSeriesIOD.cs:34-36 | a missing level element, or one that is not a string element, makes the getter fail with a null reference |
| CFindSeries.EmptyQueryLevelFails | EvilDICOM/EvilDICOM/Network/DIMSE/IOD/CFindSeriesIOD.cs:34-36 | the level of an empty data set is not PATIENT |
| CFindSeries.LevelOrPatient | EvilDICOM/EvilDICOM/Network/DIMSE/IOD/CFindSeriesIOD.cs:34-38 | the corrected getter: a missing or mistyped element is stored as PATIENT and PATIENT is returned; otherwise as before |
| CFindSeries.CFindSeriesIOD.QueryLevelValue | EvilDICOM/EvilDICOM/Network/DIMSE/IOD/CFindSeriesIOD.cs:30-39 | result and new data set are those of the corrected getter |
| CFindSeries.QueryLevelRoundTrip | EvilDICOM/EvilDICOM/Network/DIMSE/IOD/CFindSeriesIOD.cs:30-41 | setting a level and reading it back gives that level |
| CFindSeries.CFindSeriesIOD.SetQueryLevel | EvilDICOM/EvilDICOM/Network/DIMSE/IOD/CFindSeriesIOD.cs:40 | the level element, created if missing, holds the level's name; nothing else changes |
| CFindSeries.TextAt | EvilDICOM/EvilDICOM/Network/DIMSE/IOD/CFindSeriesIOD.cs:43-47 | a string property is null when its element is missing, otherwise the element's data |
| CFindSeries.TextRoundTrip | EvilDICOM/EvilDICOM/Network/DIMSE/IOD/CFindSeriesIOD.cs:43-47 | setting a string property (or null) and reading it back gives what was set |
| CFindSeries.CFindSeriesIOD.SetStudyInstanceUID | EvilDICOM/EvilDICOM/Network/DIMSE/IOD/CFindSeriesIOD.cs:43-47 | only the Study Instance UID element changes, and the property then reads the value set |
| CFindSeries.FirstIntAt | EvilDICOM/EvilDICOM/Network/DIMSE/IOD/CFindSeriesIOD.cs:49-55 | an integer property is the first stored integer when the element is present and non-empty, null otherwise |
| CFindSeries.IntsOf | EvilDICOM/EvilDICOM/Network/DIMSE/IOD/CFindSeriesIOD.cs:56 | a value is stored as the one-element list, null as the empty list |
| CFindSeries.IntegerRoundTrip | EvilDICOM/EvilDICOM/Network/DIMSE/IOD/CFindSeriesIOD.cs:49-67 | setting an integer property (or null) and reading it back gives what was set |
| CFindSeries.CFindSeriesIOD.SetSeriesNumber | EvilDICOM/EvilDICOM/Network/DIMSE/IOD/CFindSeriesIOD.cs:49-57 | only the Series Number element changes, to `[v]` or `[]`, and the property then reads `v` |
| CFindSeries.CFindSeriesIOD.SetNumberOfSeriesRelatedInstances | EvilDICOM/EvilDICOM/Network/DIMSE/IOD/CFindSeriesIOD.cs:59-67 | only the instance-count element changes, to `[v]` or `[]`, and the property then reads `v` |
| CFindSeries.CFindSeriesIOD.SetSeriesDescription | EvilDICOM/EvilDICOM/Network/DIMSE/IOD/CFindSeriesIOD.cs:69-73 | only the Series Description element changes, and the property then reads the value set |
| CFindSeries.CFindSeriesIOD.SetModality | EvilDICOM/EvilDICOM/Network/DIMSE/IOD/CFindSeriesIOD.cs:75-79 | only the Modality element changes, and the property then reads the value set |
| CFindSeries.InstantAt | EvilDICOM/EvilDICOM/Network/DIMSE/IOD/CFindSeriesIOD.cs:81-91 | a date or time property is null when its element is missing, otherwise the element's data |
| CFindSeries.InstantRoundTrip | EvilDICOM/EvilDICOM/Network/DIMSE/IOD/CFindSeriesIOD.cs:81-91 | setting a date or time (or null) and reading it back gives what was set |
| CFindSeries.CFindSeriesIOD.SetSeriesDate | EvilDICOM/EvilDICOM/Network/DIMSE/IOD/CFindSeriesIOD.cs:81-85 | only the Series Date element changes, and the property then reads the value set |
| CFindSeries.CFindSeriesIOD.SetSeriesTime | EvilDICOM/EvilDICOM/Network/DIMSE/IOD/CFindSeriesIOD.cs:87-91 | only the Series Time element changes, and the property then reads the value set |
| CFindSeries.CFindSeriesIOD.SetSeriesInstanceUID | EvilDICOM/EvilDICOM/Network/DIMSE/IOD/CFindSeriesIOD.cs:93-97 | only the Series Instance UID element changes, and the property then reads the value set |
| CFindSeries.OtherPropertiesUnchanged | EvilDICOM/EvilDICOM/Network/DIMSE/IOD/CFindSeriesIOD.cs:40-96 | writing the element of one tag leaves every property read from another tag as it was |
| CFindSeries.PropertyTagsDistinct | EvilDICOM/EvilDICOM/Network/DIMSE/IOD/CFindSeriesIOD.cs:40-96 | the nine properties address nine different tags, so setting one never disturbs another |

## Left out

- File, directory and socket I/O: file contents are byte sequences and directories are a tree. Each file read either returns a value or throws. Sends and releases are recorded as effects.
- Logging (`EvilLogger`, the association's logger, `Console.WriteLine`) and the finder's progress label and its timing.
- `TagReader`, `VRReader`, `LengthReader` and `DataReader` are not part of this model. They are given the layouts of DICOM PS3.5 sections 7.1.2 and 7.1.3. A two-character code that names no VR reads as VR `Null`.
- `ElementFactory.GenerateElement` is not part of this model. An element keeps its raw data bytes.
- The tag dictionary, the indefinite-length sequence scanner, `DICOMFileReader.ReadFileMetadata` and an element's `ToString` are not part of this model. They are parameters.
- Reading past the end of a stream is an error. A skip may move past the end, as a .NET stream seek does. A negative target position is an error.
- ElementReading.ReadAllElements: only the three uncompressed layouts are distinguished. Every other syntax takes the explicit little-endian reader, as in the source.
- LengthWriting.WriteBigEndian: `Array.Reverse` works on a value, not on an array in place.
- StringDataParsing.ParseDecimalString: `double.TryParse` is a parameter. Only the splitting and the field count are modelled, not floating-point parsing.
- StringDataParsing.ParseDate: `DateTime.ParseExact` and `TryParseExact` are parameters. Only null and empty input, format order and the failure results are modelled, not calendar arithmetic.
- StringDataParsing.ParseInt32 models `int.TryParse` with the invariant culture only: leading and trailing white space, an optional sign, decimal digits, and the 32-bit range. Thousands separators and culture-specific signs are not modelled.
- StringDataParsing.ParseAgeString: an `Age` whose unit letter is unknown keeps the enumeration's default unit, shown as `None`.
- AssociationServices.AssociationService.AssociationAcceptanceReceived: the drain loop is single-threaded. Another thread changing the state in mid-drain would make the source spin, and that is not modelled. Nor is the concurrent queue's thread safety.
- AssociationServices.Handle: `GetResponseContexts`, `SetFinalContexts` and `Accept.Generate` are parameters or recorded as data, and `DateTime.Now` is a parameter.
- AssociationServices.AssociationService.Raise: subscribers are assumed not to change the association. Only the fact that they were notified is recorded.
- DicomDirectorySearch.Lower: `ToLower` is modelled for ASCII letters only.
- Anonymization.BuildQueue: `DICOMObject.Read` is a parameter that never fails. What each anonymizer does to an object is not modelled, only which anonymizers run and in which order.
- Anonymization.AnonymizationQueue.RaiseProgressUpdated: the report is recorded whether or not there are subscribers.
- Anonymization.CalculateProgress: the double division and truncation are modelled as exact rational arithmetic rounded down, so floating-point rounding is not modelled.
- `AnonymizationQueue.Default` is not modelled, because `AnonymizationSettings.Default` is not part of this model.
- CFindSeries.ParseLevel: only the exact level names are accepted. The numeric, padded and comma-separated forms that `Enum.Parse` also takes are not. The enum's declaration is not part of this model, so its members are taken to be the four Query/Retrieve Level values.
- CFindSeries.TextAt: an element that is not a string element reads as null, as a failed cast in the selector would. The model has one `Text` kind for the CS, UI and LO string types, so a string element of another string type than its property's is read where the selector's cast would give null. The selector's typed lookups are not part of this model.
- CFindSeries.CFindSeriesIOD.FromObject: the data set of the object is taken as is, with no copy and no aliasing.

## Findings

| source | as written | input that shows it | evidently intended | confidence | as-written member | corrected member |
|---|---|---|---|---|---|---|
| EvilDICOM/EvilDICOM/Core/IO/Writing/LengthWriter.cs:38-41 | an ExplicitShort length is refused only above 65536, after being truncated to 16 bits | a US element of length 65536 in explicit VR little endian: written as 00 00, read back as 0 | refuse every length that does not fit in 16 bits (above 65535) | high, not executed | LengthWriting.ShortLength65536Wraps | LengthWriting.CheckedLengthRoundTrip |
| EvilDICOM/EvilDICOM/Core/IO/Data/StringDataParser.cs:19-20 | the number is taken from offsets 1 to 3 and the unit from offset 4 | "045Y": `int.Parse("45Y")` throws, and offset 4 is past the end | number from offsets 0 to 2 and unit from offset 3, the "nnnX" layout of an Age String in DICOM PS3.5 section 6.2 | high, not executed | StringDataParsing.AgeStringRefusedAsWritten | StringDataParsing.AgeStringRoundTrip |
| EvilDICOM/EvilDICOM/Network/DIMSE/IOD/CFindSeriesIOD.cs:34-36 | when the level element is missing, the getter assigns to the missing element's data | a query built from an object with no Query/Retrieve Level element: the getter throws a null reference instead of answering PATIENT | store PATIENT in a new element and return it | high, not executed | CFindSeries.EmptyQueryLevelFails | CFindSeries.LevelOrPatient |
| EvilDICOM/EvilDICOM/Anonymization/AnonymizationQueue.cs:67 | the percent from `CalculateProgress` is divided by 100 before it is reported | any queue, for example the two mandatory anonymizers: reports 0.33 and 0.66 | report the percent, from 0 to 100, as the event's documentation at line 92 says | medium, not executed | Anonymization.ReportedProgressBelowOne | Anonymization.ReportsOrderedBelow100 |
