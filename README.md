# Import control of the mapshaper web interface

This project models the import queue and merge logic of `ImportControl` in the
mapshaper web interface (`src/gui/mapshaper-import-control.js`), and proves properties
of that model. Files reach the control by drag and drop, by file choosers, from inside
zip archives, or by download from a start-up manifest. The control keeps them in a
queue that drops unreadable files and duplicate names and is sorted by lower-cased
name. It pops the queue from the end and starts reading that file; when the content
arrives it either pops the next file or schedules an import whose callback does. Nothing
stops a second submission, a drop or a finished download from starting another read
while one is still under way, so several callbacks can be pending at once. Each file
is handled in one of three ways:

- a `.dbf` is attached as the attribute table of an imported Shapefile dataset;
- a `.prj` gives its projection to matching Shapefile datasets;
- anything else is handed to the importer as a new dataset.

The control counts imports. When import mode ends, it selects the last imported
dataset.

Modules:

- `Types` (`types.dfy`): files, contents (text or bytes), layers, datasets, importer
  options and errors. It also holds the `Classifiers` record: the file-type and path
  functions the control calls but does not define.
- `Strings` (`strings.dfy`): ASCII lower-casing, and JavaScript's `<=` on strings as
  `LexLe`, proved to be a total order.
- `Intake` (`intake.dfy`): `isReadableFileType`, and the reduce and sort of `addFiles`
  as the functions `Deduplicated` and `Insert` plus the method `SortByLowerName`. Also
  `containsImmediateFile` and the zip reader's `.txt` filter.
- `Matching` (`matching.dfy`): `findMatchingShp`, the choice of the `.dbf` target, the
  `.prj` loop, and the three-way dispatch of `readFileContent`.
- `Download` (`download.dfy`): `prepFilesForDownload`, the response classification of
  `downloadNextFile`, and the stop-at-first-error collection of the manifest files.
- `Session` (`session.dfy`): the class `ImportControl`. Its fields are the queue,
  `importCount`, `importDataset`, the dataset list of the map model, the selected
  dataset, whether import mode is on, and the multiset of callbacks scheduled and not yet
  fired. Each browser callback (FileReader `loadend`, importer timer, zip reader,
  download completion) is a method, called with the pending callback that fires and
  what it receives; the method consumes that callback and leaves the others pending. Each step method is tied to a pure
  transition function on a `Snapshot` of that state. The invariants and bookkeeping
  properties are lemmas about those functions.

Datasets are values in a sequence, and `importDataset` and the selection are positions
in it. The source's in-place updates (`lyr.data = …`, `d.info.prj = …`) become updates
of one element of that sequence.

A `.dbf` whose record count differs from its Shapefile's shape count is not a
recoverable validation error: `stop` (line 251) throws after the table has been
assigned (line 249), so the table stays attached, `readNext` is not reached and the
queue is kept. `Session.AfterDbf` and `Session.MismatchKeepsTable` model that. In the
same way an exception from `gui.parseFreeformOptions` (line 194, called at line 233)
or from the `ShapefileTable` constructor (line 249) ends `readFileContent` before it
changes anything; the model reports it as `OptionsRejected` or `TableRejected`.

## Model

| member | source | states |
|---|---|---|
| Intake.IsReadableFileType | src/gui/mapshaper-import-control.js:8-12 | definition: a name is readable when it has a known input type, could be delimited text, or is a zip |
| Intake.Deduplicated | src/gui/mapshaper-import-control.js:130-137 | definition: the reduce walks queue then new files and keeps a file when it is readable and its name is not yet in the index; its properties are the lemmas below |
| Intake.DeduplicatedIsQueueable | src/gui/mapshaper-import-control.js:128-137 | after the reduce, no two files share a name and every file passes `isReadableFileType` |
| Intake.DeduplicatedKeepsFirst | src/gui/mapshaper-import-control.js:128-137 | every kept file is the first file of its name in queue-then-new-files order (the first occurrence wins) |
| Intake.DeduplicatedNames | src/gui/mapshaper-import-control.js:128-137 | every readable name of the input survives, and every kept name occurs in the input |
| Intake.DeduplicatedElements | src/gui/mapshaper-import-control.js:128-137 | the reduce keeps only files of its input |
| Intake.DeduplicatedIgnoresKnownNames | src/gui/mapshaper-import-control.js:128-137 | adding files that are unreadable or whose names are queued already leaves a valid queue exactly as it was |
| Intake.DeduplicatedOfQueue | src/gui/mapshaper-import-control.js:128-137 | the reduce is idempotent: a queue of unique readable names is its own result |
| Intake.Insert | src/gui/mapshaper-import-control.js:139-146 | inserting into a list sorted by lower-cased name keeps it sorted and adds exactly that file |
| Intake.SortByLowerName | src/gui/mapshaper-import-control.js:139-146 | the sort leaves the files in nondecreasing lower-cased name order and is a permutation of its input |
| Intake.SortedQueueIsUnique | src/gui/mapshaper-import-control.js:139-146 | when no two names are equal after lower-casing, the sorted order of a set of files is unique |
| Intake.UniqueUnderPermutation | src/gui/mapshaper-import-control.js:130-146 | sorting keeps the names unique |
| Intake.ReadableUnderPermutation | src/gui/mapshaper-import-control.js:130-146 | sorting keeps every file readable |
| Strings.Lower | src/gui/mapshaper-import-control.js:145 | lower-casing keeps the length and leaves no capital letter |
| Strings.LowerIdempotent | src/gui/mapshaper-import-control.js:145 | lower-casing a lower-cased name changes nothing |
| Strings.LowerFixesExactlyUncapitalized | src/gui/mapshaper-import-control.js:145 | a name is its own lower case exactly when it has no capital letter |
| Strings.EndsWithTxt | src/gui/mapshaper-import-control.js:321 | definition: the regular expression `/\.txt$/i`, a name of at least four characters whose last four lower-case to `.txt` |
| Strings.HasSchemeSeparator | src/gui/mapshaper-import-control.js:332 | definition: the regular expression `/:\/\//`, "://" occurs somewhere in the name |
| Strings.LexLeTotal | src/gui/mapshaper-import-control.js:145 | any two names are ordered one way or the other by the comparator's `>` |
| Strings.LexLeTransitive | src/gui/mapshaper-import-control.js:145 | the order the comparator uses is transitive |
| Strings.LexLeAntisymmetric | src/gui/mapshaper-import-control.js:145 | two names each `<=` the other are equal |
| Intake.LastIsGreatest | src/gui/mapshaper-import-control.js:184-190 | the file `pop` takes from a sorted queue has the greatest lower-cased name |
| Intake.ContainsImmediateFile | src/gui/mapshaper-import-control.js:171-177 | true exactly when some file's input type is `shp` or `json` |
| Intake.ImmediateSurvivesIntake | src/gui/mapshaper-import-control.js:157-177 | the deduplicated batch holds a `shp` or `json` file exactly when the input does |
| Intake.ImmediateUnderPermutation | src/gui/mapshaper-import-control.js:162 | the sort does not change whether the queue holds an immediate file |
| Intake.WithoutTxt | src/gui/mapshaper-import-control.js:318-322 | the archive members kept are exactly those whose name does not end in `.txt`, ignoring case |
| Intake.WithoutTxtConcat | src/gui/mapshaper-import-control.js:320-322 | filtering two runs of members in a row is filtering each, so the archive's order is kept |
| Intake.WithoutTxtSingle | src/gui/mapshaper-import-control.js:320-322 | one member is kept, once, exactly when its name does not end in `.txt` |
| Matching.FindMatchingShp | src/gui/mapshaper-import-control.js:78-87 | exactly the datasets whose first input file has the same lower-cased base name and a `shp` extension, in dataset-list order |
| Matching.NoInputFilesNeverMatch | src/gui/mapshaper-import-control.js:82-85 | a dataset without input files never matches |
| Matching.LastLackingData | src/gui/mapshaper-import-control.js:241-246 | the reduce yields the last match whose first layer has no data, or nothing when every match has data |
| Matching.DbfTarget | src/gui/mapshaper-import-control.js:238-247 | the `.dbf` target is a matching dataset lacking data, no later matching dataset lacks data, and there is none only when every matching dataset has data |
| Matching.AttachTable | src/gui/mapshaper-import-control.js:247-249 | the table becomes the first layer's data of the target; shapes, geometry type, info and every other dataset are unchanged |
| Matching.WithPrj | src/gui/mapshaper-import-control.js:262-268 | every matching dataset without a projection receives it, no existing projection is overwritten, other datasets and all layers are unchanged |
| Matching.PrjFirstWins | src/gui/mapshaper-import-control.js:262-268 | once a non-empty projection is assigned, a second `.prj` for the same datasets changes nothing |
| Matching.PrjKeepsDbfTarget | src/gui/mapshaper-import-control.js:238-271 | assigning a projection never changes which dataset a `.dbf` goes to |
| Matching.AttachCommutesWithPrj | src/gui/mapshaper-import-control.js:238-271 | attaching a table and assigning a projection commute |
| Matching.DbfTable | src/gui/mapshaper-import-control.js:249 | the table built from the `.dbf` and the encoding, or nothing when its constructor throws |
| Matching.DispatchFor | src/gui/mapshaper-import-control.js:238-273 | definition: a `dbf` with a target attaches to it, a `prj` is assigned, anything else is imported |
| Matching.DispatchCases | src/gui/mapshaper-import-control.js:231-274 | a `.dbf` with a target is attached to it; a `.prj` is always consumed; everything else, including a `.dbf` without a target, is imported |
| Matching.DbfAttachedWhenPossible | src/gui/mapshaper-import-control.js:238-273 | when any matching dataset lacks data, a `.dbf` is attached, to that dataset or a later one |
| Download.PrepFilesForDownload | src/gui/mapshaper-import-control.js:330-345 | every item comes from a manifest name and has a readable base name, and every name with a readable base name gives an item |
| Download.PrepFilesConcat | src/gui/mapshaper-import-control.js:330-345 | the items of two manifests in a row are the items of the first followed by those of the second: order is kept |
| Download.PrepFilesSingle | src/gui/mapshaper-import-control.js:331-344 | one name gives exactly its item when the item's base name is readable and nothing otherwise, so each name yields at most one item |
| Download.ItemFor | src/gui/mapshaper-import-control.js:331-341 | definition: a name with `://` is a URL fetched as given, with the URL's file name as base name; any other name is fetched from `/data/` |
| Download.ItemLocations | src/gui/mapshaper-import-control.js:332-341 | a URL is fetched as given; any other name is fetched from `/data/` under its own name |
| Download.BlobOf | src/gui/mapshaper-import-control.js:365-369 | definition: the body is kept only when `load` fired with status 200 |
| Download.ClassifyResponse | src/gui/mapshaper-import-control.js:361-384 | success exactly for status 200 with a loaded body, renamed to the base name; 404 gives "Not found"; any other failure gives the load-error message |
| Download.CollectDownloads | src/gui/mapshaper-import-control.js:347-359 | all files in item order when every response succeeds; otherwise the error of the first failing item |
| Types.Utf16LengthBounds | src/gui/mapshaper-import-control.js:277 | a string's `length` lies between its character count and twice that, and equals the character count exactly when no character lies outside the Basic Multilingual Plane |
| Types.Size | src/gui/mapshaper-import-control.js:277 | definition: `byteLength` of an ArrayBuffer, `length` in UTF-16 code units of a string |
| Session.StageFor | src/gui/mapshaper-import-control.js:200-229 | definition: a zip is unzipped; any other file is read, as an ArrayBuffer when `ReadsAsBinary` says so |
| Session.ReadsAsBinary | src/gui/mapshaper-import-control.js:203-205 | definition: binary files, JSON and text are read as ArrayBuffers, everything else as UTF-8 text |
| Session.ErrorMessage | src/gui/mapshaper-import-control.js:301-305 | definition: the error string or the error's message, prefixed with the path in `<i>` when the path is non-empty |
| Session.TurnedOff | src/gui/mapshaper-import-control.js:104-113 | definition of `turnOff` on the snapshot |
| Session.ModeCleared | src/gui/mapshaper-import-control.js:65 | definition: leaving import mode runs `turnOff`; outside import mode nothing changes |
| Session.Failed | src/gui/mapshaper-import-control.js:301-309 | definition: `handleImportError` empties the queue |
| Session.Done | src/gui/mapshaper-import-control.js:207-213 | definition: a callback that fires is no longer pending |
| Session.AfterReadNext | src/gui/mapshaper-import-control.js:184-190 | definition of `readNext`: pop and schedule the read, or clear the mode |
| Session.AfterDbf | src/gui/mapshaper-import-control.js:247-258 | definition of the `.dbf` branch: attach, then halt on a mismatch or refresh and `readNext` |
| Session.AfterPrj | src/gui/mapshaper-import-control.js:262-271 | definition of the `.prj` branch: assign, then `readNext` |
| Session.AfterContent | src/gui/mapshaper-import-control.js:231-274 | definition of `readFileContent`, with the two halts on a thrown exception |
| Session.AfterLoad | src/gui/mapshaper-import-control.js:207-213 | definition of the `loadend` callback |
| Session.AfterImport | src/gui/mapshaper-import-control.js:286-298 | definition of the import timer callback |
| Session.ReceptionFor | src/gui/mapshaper-import-control.js:157-169 | definition of the decision of `receiveFiles` |
| Session.IntakeIsQueue | src/gui/mapshaper-import-control.js:128-147 | the queue `addFiles` leaves has unique readable sorted names, keeps each name's first file and loses no readable name |
| Session.ZipSkipsTxt | src/gui/mapshaper-import-control.js:318-323 | no archive member ending in `.txt` is queued |
| Session.ReceptionCases | src/gui/mapshaper-import-control.js:157-177 | auto-submit exactly when nothing was imported, the queue was empty and the batch has a `shp` or `json` file; the batch is ignored exactly when nothing is readable |
| Session.ReadNextPopsGreatest | src/gui/mapshaper-import-control.js:184-190 | a non-empty queue loses exactly its last file, the greatest, and one read or unzip of it is added to the pending callbacks; an empty queue ends import mode, selects the last import and schedules nothing |
| Session.DrainOrder | src/gui/mapshaper-import-control.js:184-190 | successive pops come in nonincreasing lower-cased name order |
| Session.ReadNextKeepsModel | src/gui/mapshaper-import-control.js:184-190 | `readNext` changes neither the datasets nor the import count, and drops no pending callback |
| Session.ContentKeepsInv | src/gui/mapshaper-import-control.js:231-274 | handling a file's content keeps the queue invariant and the dataset positions valid |
| Session.ContentBookkeeping | src/gui/mapshaper-import-control.js:231-274 | handling content never changes the import count or the number of datasets, never replaces an existing projection and keeps every other pending callback |
| Session.ThrowLeavesStateAlone | src/gui/mapshaper-import-control.js:231-252 | the options parser throwing, or the table constructor throwing for a `.dbf` that has a target, are exactly the rejected cases, and they leave the state untouched with no next file |
| Session.LoadFailureCases | src/gui/mapshaper-import-control.js:200-213 | a read fails exactly when there is no result or text was asked for and is empty; failure empties the queue, keeps datasets, count and mode, and consumes only the callback that fired |
| Session.MismatchKeepsTable | src/gui/mapshaper-import-control.js:247-252 | on a record-count mismatch the constructed table stays attached, the queue is neither advanced nor cleared and no callback is scheduled |
| Session.DbfKeepsInv | src/gui/mapshaper-import-control.js:247-258 | attaching a table and going on keeps the invariant |
| Session.PrjKeepsInv | src/gui/mapshaper-import-control.js:262-271 | assigning a projection and going on keeps the invariant |
| Session.DbfBookkeeping | src/gui/mapshaper-import-control.js:247-258 | the `.dbf` branch keeps the count, the datasets' number and projections, and the pending callbacks |
| Session.PrjBookkeeping | src/gui/mapshaper-import-control.js:262-271 | the `.prj` branch keeps the count, the datasets' number and existing projections, and the pending callbacks |
| Session.ImportKeepsInv | src/gui/mapshaper-import-control.js:286-298 | registering an imported dataset keeps the invariant |
| Session.ImportBookkeeping | src/gui/mapshaper-import-control.js:286-309 | success appends exactly one dataset, remembers it and adds one to the count; failure keeps datasets and count, empties the queue and reports the error; either way the other pending callbacks survive |
| Session.ImportControl.constructor | src/gui/mapshaper-import-control.js:57-102 | starts in import mode with an empty queue and no imports; the download of the manifest's readable files is the one pending callback when there is a manifest |
| Session.ImportControl.ClearFiles | src/gui/mapshaper-import-control.js:121-126 | the queue is empty |
| Session.ImportControl.AddFiles | src/gui/mapshaper-import-control.js:128-147 | the new queue is a sorted permutation of the deduplicated old queue plus the files; nothing else changes |
| Session.ImportControl.TurnOff | src/gui/mapshaper-import-control.js:104-113 | selects the last imported dataset, forgets it and empties the queue |
| Session.ImportControl.ClearMode | src/gui/mapshaper-import-control.js:65 | leaving import mode runs `turnOff` |
| Session.ImportControl.EnterImportMode | src/gui/mapshaper-import-control.js:161 | import mode is on and nothing else changes |
| Session.ImportControl.ReadNext | src/gui/mapshaper-import-control.js:184-190 | the new state is `AfterReadNext` of the old one |
| Session.ImportControl.SubmitFiles | src/gui/mapshaper-import-control.js:179-182 | submitting runs `readNext`, adding a read to whatever is already pending |
| Session.ImportControl.ReceiveFiles | src/gui/mapshaper-import-control.js:157-169 | queues the batch, then ignores it, submits it or waits for confirmation as `ReceptionFor` decides |
| Session.ImportControl.HandleImportError | src/gui/mapshaper-import-control.js:301-309 | the message is the error text, prefixed with the path when there is one; the queue is emptied |
| Session.ImportControl.ImportFileContent | src/gui/mapshaper-import-control.js:276-285 | adds the import to the pending callbacks, with the progress message only for content over 40,000,000 bytes or UTF-16 code units |
| Session.ImportControl.MergeDbf | src/gui/mapshaper-import-control.js:247-258 | attaches the table, then stops on a mismatch or goes on with `readNext` |
| Session.ImportControl.AssignProjection | src/gui/mapshaper-import-control.js:264-268 | the `forEach` leaves the datasets as `WithPrj` says: each match without a projection gets this one, nothing else changes |
| Session.ImportControl.MergePrj | src/gui/mapshaper-import-control.js:262-271 | assigns the projection, reports the matches, then `readNext`, whether or not anything matched |
| Session.ImportControl.ReadFileContent | src/gui/mapshaper-import-control.js:231-274 | the new state, report and next file are `AfterContent` of the old state, including the halts when the options parser or the table constructor throws |
| Session.ImportControl.OnFileLoaded | src/gui/mapshaper-import-control.js:207-213 | consumes the read that fired; a falsy result is an import error for the file's name; otherwise the content is handled |
| Session.ImportControl.OnImportDone | src/gui/mapshaper-import-control.js:286-298 | consumes the import that fired; the importer's dataset is registered with `no_repair` set, remembered and counted, or its error is handled |
| Session.ImportControl.Register | src/gui/mapshaper-import-control.js:290-293 | the dataset, with `no_repair` from the options, is appended, remembered as the import dataset and counted; the invariant is kept |
| Session.ImportControl.OnZipRead | src/gui/mapshaper-import-control.js:314-326 | consumes the unzip that fired; an archive error is an import error for the archive; otherwise its non-`.txt` members are queued and the pipeline goes on |
| Session.ImportControl.OnDownloadsDone | src/gui/mapshaper-import-control.js:347-359 | consumes the download that fired; a failed download is reported and nothing is queued; no files end import mode; otherwise the files are queued and submitted |

## Left out

- DOM and UI glue: `DropControl`, `FileChooser`, `showQueuedFiles`, `close`, the buttons and the `El(...)` calls, and the progress messages. These only display the state.
- The `gui.on('mode')` handler, which re-enters import mode while nothing has been imported. Mode switching belongs to the GUI framework, which is not part of this model. For the same reason `gui.alert` is not modelled as switching modes; only its message is reported.
- Browser I/O: the FileReader and XMLHttpRequest transport. Each step method is called with what the callback would receive: the reader's result, the importer's dataset or error, the zip reader's members or error, the network's responses.
- Timing: the `setTimeout` delays. The delay is irrelevant to the logic; only the "show progress" flag for content over 40,000,000 is kept.
- Foreign code: `internal.importFileContent`, `internal.ShapefileTable` (only its record count, or its failure, is kept), `gui.readZipFile`, `getImportOpts` and `gui.parseFreeformOptions`. Their results are parameters: the options are an `ImportOpts` value, or nothing when parsing them throws.
- Classifier internals: `guessInputFileType`, `guessInputType`, `couldBeDsvFile`, `isZipFile`, `isBinaryFile`, `getPathBase`, `getFileExtension` and `getUrlFilename` are uninterpreted functions in `Classifiers`.
- Download.CollectDownloads: models `utils.reduceAsync` only as a sequential fold that stops at the first error; its implementation is not part of this model.
- Session.ImportControl.AddFiles: states only that the queue is sorted by lower-cased name and is a permutation of the deduplicated files. The comparator never returns 0, so the order of names that are equal after lower-casing depends on the JavaScript engine's sort.
- Intake.SortByLowerName: an insertion sort stands for `Array.prototype.sort`; only sortedness and permutation are specified, as above.
- Strings.Lower: lower-cases ASCII letters only; `toLowerCase` also maps other Unicode letters.
- Strings.LexLe: compares characters, where JavaScript compares UTF-16 code units; the two orders differ only between characters outside the Basic Multilingual Plane and those from U+E000 to U+FFFF.
- Datasets without layers: the source reads `layers[0]` and would throw. The model requires every dataset, including the importer's result, to have at least one layer.
- The `in` test in `addFiles` also finds names inherited from `Object.prototype` (such as `constructor`). The model treats the index as a plain set of names.
- `stop` is taken to throw, as its use on a record-count mismatch shows; how the GUI reports that exception is outside this file.
