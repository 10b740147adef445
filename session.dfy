/** The import control: its queue, its counters and the read pipeline that pops a
    file, waits for its content and merges or imports it. Each asynchronous callback of
    the browser is a method, called with the callback that completes and what it
    receives. */
module Session {
  import opened Types
  import opened Strings
  import opened Intake
  import opened Matching
  import opened Download

  /** A callback the control has scheduled and that has not fired yet. */
  datatype Pending =
    | Downloading(items: seq<DownloadItem>)
    | Reading(file: File, binary: bool)
    | Unzipping(file: File)
    | Importing(path: string, content: Content, opts: ImportOpts)

  /** `readSingleFile` asks for an ArrayBuffer for binary, JSON and text files and for
      a UTF-8 string otherwise. */
  predicate ReadsAsBinary(env: Classifiers, name: string)
  {
    env.isBinaryFile(name) || env.guessInputFileType(name) == "json" || env.guessInputFileType(name) == "text"
  }

  /** `readFile`: a zip goes to the zip reader, any other file to a FileReader. */
  function StageFor(env: Classifiers, f: File): Pending
  {
    if env.isZipFile(f.name) then Unzipping(f) else Reading(f, ReadsAsBinary(env, f.name))
  }

  /** What a step reports besides the new state. `OptionsRejected` and `TableRejected`
      stand for an exception thrown by the options parser or by the table constructor,
      which ends the callback before it changes anything. */
  datatype Report =
    | Quiet
    | Alert(message: string)
    | DbfAttached(target: nat, refresh: bool)
    | DbfMismatch(target: nat, message: string)
    | PrjAssigned(targets: seq<nat>)
    | ImportScheduled(showProgress: bool)
    | OptionsRejected
    | TableRejected(target: nat)

  /** The whole state of the control, plus the part of the map model it touches:
      the dataset list and the dataset whose first layer is selected. Nothing in the
      source limits how many callbacks are scheduled at once, so they form a multiset. */
  datatype Snapshot = Snapshot(
    queuedFiles: seq<File>,
    importCount: nat,
    importDataset: Option<nat>,
    datasets: seq<Dataset>,
    selected: Option<nat>,
    importMode: bool,
    pending: multiset<Pending>)

  /** The result of a step: the new state, the report and the file whose reading the
      step started, if any. */
  datatype Step = Step(after: Snapshot, report: Report, next: Option<File>)

  predicate Inv(env: Classifiers, s: Snapshot)
  {
    QueueInvariant(env, s.queuedFiles) &&
    AllHaveLayers(s.datasets) &&
    (s.importDataset.Some? ==> s.importDataset.value < |s.datasets|) &&
    (s.selected.Some? ==> s.selected.value < |s.datasets|)
  }

  const ReadFailureText: string := "Web browser was unable to load the file."
  const MismatchText: string := "Different number of records in .shp and .dbf files"

  function MessageOf(e: ImportError): string
  {
    match e
    case ErrorString(t) => t
    case ErrorObject(m) => m
  }

  /** The message `handleImportError` shows. */
  function ErrorMessage(e: ImportError, path: string): string
  {
    if path != "" then "Error importing <i>" + path + "</i><br>" + MessageOf(e) else MessageOf(e)
  }

  /** `turnOff`: select the first layer of the last imported dataset, forget it, and
      empty the queue. */
  function TurnedOff(s: Snapshot): Snapshot
  {
    s.(selected := if s.importDataset.Some? then s.importDataset else s.selected, importDataset := None, queuedFiles := [])
  }

  /** `gui.clearMode()`: leaving import mode runs `turnOff`; with no mode active it does
      nothing. */
  function ModeCleared(s: Snapshot): Snapshot
  {
    if s.importMode then TurnedOff(s).(importMode := false) else s
  }

  /** `handleImportError`: the queue is emptied. */
  function Failed(s: Snapshot): Snapshot
  {
    s.(queuedFiles := [])
  }

  /** The state once callback `c` has fired. */
  function Done(s: Snapshot, c: Pending): Snapshot
  {
    s.(pending := s.pending - multiset{c})
  }

  /** `readNext`: pop the last queued file and start reading it, or leave import mode. */
  function AfterReadNext(env: Classifiers, s: Snapshot): Step
  {
    if |s.queuedFiles| > 0 then
      var f := s.queuedFiles[|s.queuedFiles| - 1];
      Step(s.(queuedFiles := s.queuedFiles[..|s.queuedFiles| - 1], pending := s.pending + multiset{StageFor(env, f)}), Quiet, Some(f))
    else
      Step(ModeCleared(s), Quiet, None)
  }

  /** A `.dbf` attached to the data-less first layer of dataset `t`: on a record
      count that differs from the shape count `stop` throws, so the callback ends
      with the table attached; otherwise the pipeline goes on. */
  function AfterDbf(env: Classifiers, s: Snapshot, t: nat, table: Table): Step
    requires t < |s.datasets| && |s.datasets[t].layers| > 0
  {
    var lyr := s.datasets[t].layers[0];
    var merged := s.(datasets := AttachTable(s.datasets, t, table));
    if RecordMismatch(lyr, table) then Step(merged, DbfMismatch(t, MismatchText), None)
    else AfterReadNext(env, merged).(report := DbfAttached(t, lyr.geometryType.None?))
  }

  /** A `.prj` given to every matching dataset that has none; the pipeline goes on. */
  function AfterPrj(env: Classifiers, s: Snapshot, name: string, content: Content): Step
  {
    var withPrj := s.(datasets := WithPrj(env, s.datasets, name, content));
    AfterReadNext(env, withPrj).(report := PrjAssigned(FindMatchingShp(env, s.datasets, name)))
  }

  /** `readFileContent` for a file whose reading succeeded; `opts` is what
      `getImportOpts` returns, or nothing when parsing the options throws. */
  function AfterContent(env: Classifiers, s: Snapshot, name: string, content: Content, opts: Option<ImportOpts>): Step
  {
    match opts
    case None => Step(s, OptionsRejected, None)
    case Some(o) =>
      match DispatchFor(env, s.datasets, name, content)
      case AttachDbf(t) =>
        (match DbfTable(env, content, o.encoding)
         case None => Step(s, TableRejected(t), None)
         case Some(table) => AfterDbf(env, s, t, table))
      case AssignPrj() => AfterPrj(env, s, name, content)
      case ImportNew =>
        Step(s.(pending := s.pending + multiset{Importing(name, content, o)}), ImportScheduled(IsLarge(content)), None)
  }

  /** The `loadend` callback `c` of `readSingleFile`: a falsy result fails the whole
      batch, anything else goes to `readFileContent`. */
  function AfterLoad(env: Classifiers, s: Snapshot, c: Pending, result: Option<Content>, opts: Option<ImportOpts>): Step
    requires c.Reading?
  {
    var d := Done(s, c);
    if result.None? || !Truthy(result.value) then
      Step(Failed(d), Alert(ErrorMessage(ErrorString(ReadFailureText), c.file.name)), None)
    else AfterContent(env, d, c.file.name, result.value, opts)
  }

  /** The dataset as registered: the importer's result with `info.no_repair` set. */
  function Registered(d: Dataset, opts: ImportOpts): Dataset
  {
    d.(info := d.info.(noRepair := opts.noRepair))
  }

  /** The timer callback `c` of `importFileContent`, given what the importer returned. */
  function AfterImport(env: Classifiers, s: Snapshot, c: Pending, result: Result<Dataset, ImportError>): Step
    requires c.Importing?
  {
    var d := Done(s, c);
    match result
    case Ok(ds) =>
      var added := d.(datasets := d.datasets + [Registered(ds, c.opts)],
                      importDataset := Some(|d.datasets|), importCount := d.importCount + 1);
      AfterReadNext(env, added)
    case Err(e) =>
      Step(Failed(d), Alert(ErrorMessage(e, c.path)), None)
  }

  /** `after` is what `addFiles` leaves when `files` arrive at queue `before`. */
  predicate IsIntake(env: Classifiers, before: seq<File>, files: seq<File>, after: seq<File>)
  {
    SortedByKey(after) && multiset(after) == multiset(Deduplicated(env, before + files))
  }

  /** `receiveFiles`' decision. */
  datatype Reception = Ignored | Submitted | AwaitingConfirmation

  function ReceptionFor(env: Classifiers, count: nat, before: seq<File>, files: seq<File>): Reception
  {
    var added := Deduplicated(env, before + files);
    if |added| == 0 then Ignored
    else if count == 0 && |before| == 0 && ContainsImmediateFile(env, added) then Submitted
    else AwaitingConfirmation
  }

  /** The intake keeps the queue invariant, keeps the first file of each name and
      drops nothing readable. */
  lemma IntakeIsQueue(env: Classifiers, before: seq<File>, files: seq<File>, after: seq<File>)
    requires IsIntake(env, before, files, after)
    ensures QueueInvariant(env, after)
    ensures forall k :: 0 <= k < |after| ==>
      FirstIndexOf(before + files, after[k].name) < |before + files| &&
      after[k] == (before + files)[FirstIndexOf(before + files, after[k].name)]
    ensures forall f :: f in before + files && IsReadableFileType(env, f.name) ==> f.name in Names(after)
  {
    var all := before + files;
    var d := Deduplicated(env, all);
    DeduplicatedIsQueueable(env, all);
    UniqueUnderPermutation(d, after);
    ReadableUnderPermutation(env, d, after);
    DeduplicatedKeepsFirst(env, all);
    DeduplicatedNames(env, all);
    forall k | 0 <= k < |after|
      ensures FirstIndexOf(all, after[k].name) < |all| && after[k] == all[FirstIndexOf(all, after[k].name)]
    {
      assert after[k] in multiset(d);
      var j :| 0 <= j < |d| && d[j] == after[k];
    }
    forall f | f in all && IsReadableFileType(env, f.name) ensures f.name in Names(after) {
      var h :| h in d && h.name == f.name;
      assert h in multiset(after);
    }
  }

  /** Members of an archive whose name ends in `.txt` never reach the queue: each file
      the zip callback leaves queued was queued before or is another member. */
  lemma ZipSkipsTxt(env: Classifiers, before: seq<File>, files: seq<File>, after: seq<File>)
    requires IsIntake(env, before, WithoutTxt(files), after)
    ensures forall f :: f in after ==> f in before || (f in files && !EndsWithTxt(f.name))
  {
    DeduplicatedElements(env, before + WithoutTxt(files));
    forall f | f in after ensures f in before || (f in files && !EndsWithTxt(f.name)) {
      assert f in multiset(after);
      assert f in Deduplicated(env, before + WithoutTxt(files)) by {
        assert f in multiset(Deduplicated(env, before + WithoutTxt(files)));
      }
      assert f in before + WithoutTxt(files);
    }
  }

  /** `receiveFiles` submits right away exactly when nothing has been imported yet,
      the queue was empty and the batch holds a Shapefile or JSON file; it ignores a
      batch exactly when nothing in the queue or the batch is readable. */
  lemma ReceptionCases(env: Classifiers, count: nat, before: seq<File>, files: seq<File>)
    ensures ReceptionFor(env, count, before, files) == Submitted <==>
      count == 0 && before == [] && exists i :: 0 <= i < |files| && IsImmediate(env, files[i].name)
    ensures ReceptionFor(env, count, before, files) == Ignored <==>
      forall i :: 0 <= i < |before + files| ==> !IsReadableFileType(env, (before + files)[i].name)
  {
    var all := before + files;
    var d := Deduplicated(env, all);
    DeduplicatedNamesAt(env, all);
    DeduplicatedIsQueueable(env, all);
    DeduplicatedElements(env, all);
    if before == [] {
      assert all == files;
      ImmediateSurvivesIntake(env, files);
    }
    if |d| > 0 {
      assert d[0] in all;
    }
  }

  /** `readNext` pops the last file, one with the greatest lower-cased name, leaves
      the rest of the queue as it was and schedules one more callback, keeping those
      already scheduled; on an empty queue it leaves import mode, selecting the last
      imported dataset. */
  lemma ReadNextPopsGreatest(env: Classifiers, s: Snapshot)
    requires Inv(env, s)
    ensures var r := AfterReadNext(env, s);
      Inv(env, r.after) && r.after.datasets == s.datasets && r.after.importCount == s.importCount
    ensures var r := AfterReadNext(env, s);
      |s.queuedFiles| > 0 ==>
        r.next == Some(s.queuedFiles[|s.queuedFiles| - 1]) && r.after.queuedFiles + [s.queuedFiles[|s.queuedFiles| - 1]] == s.queuedFiles &&
        r.after.pending == s.pending + multiset{StageFor(env, s.queuedFiles[|s.queuedFiles| - 1])} &&
        forall i :: 0 <= i < |s.queuedFiles| ==> LexLe(Key(s.queuedFiles[i]), Key(s.queuedFiles[|s.queuedFiles| - 1]))
    ensures var r := AfterReadNext(env, s);
      |s.queuedFiles| == 0 ==>
        r.next == None && !r.after.importMode && r.after.queuedFiles == [] && r.after.pending == s.pending &&
        (s.importMode && s.importDataset.Some? ==> r.after.selected == s.importDataset && r.after.importDataset == None)
  {
    if |s.queuedFiles| > 0 {
      LastIsGreatest(s.queuedFiles);
      assert s.queuedFiles[..|s.queuedFiles| - 1] + [s.queuedFiles[|s.queuedFiles| - 1]] == s.queuedFiles;
    }
  }

  /** Draining: popping repeatedly yields names in nonincreasing lower-cased order. */
  lemma DrainOrder(env: Classifiers, s: Snapshot)
    requires Inv(env, s) && |s.queuedFiles| >= 2
    ensures var first := AfterReadNext(env, s);
      var second := AfterReadNext(env, first.after);
      first.next.Some? && second.next.Some? && LexLe(Key(second.next.value), Key(first.next.value))
  {
    ReadNextPopsGreatest(env, s);
  }

  lemma DbfKeepsInv(env: Classifiers, s: Snapshot, t: nat, table: Table)
    requires Inv(env, s) && t < |s.datasets| && |s.datasets[t].layers| > 0
    ensures Inv(env, AfterDbf(env, s, t, table).after)
  {
    var merged := s.(datasets := AttachTable(s.datasets, t, table));
    assert Inv(env, merged);
    ReadNextPopsGreatest(env, merged);
  }

  lemma PrjKeepsInv(env: Classifiers, s: Snapshot, name: string, content: Content)
    requires Inv(env, s)
    ensures Inv(env, AfterPrj(env, s, name, content).after)
  {
    var withPrj := s.(datasets := WithPrj(env, s.datasets, name, content));
    assert Inv(env, withPrj);
    ReadNextPopsGreatest(env, withPrj);
  }

  /** Every step of the pipeline keeps the invariant. */
  lemma ContentKeepsInv(env: Classifiers, s: Snapshot, name: string, content: Content, opts: Option<ImportOpts>)
    requires Inv(env, s)
    ensures Inv(env, AfterContent(env, s, name, content, opts).after)
  {
    if opts.Some? {
      var table := DbfTable(env, content, opts.value.encoding);
      match DispatchFor(env, s.datasets, name, content)
      case AttachDbf(t) =>
        if table.Some? {
          DbfKeepsInv(env, s, t, table.value);
        }
      case AssignPrj =>
        PrjKeepsInv(env, s, name, content);
      case ImportNew =>
    }
  }

  lemma ImportKeepsInv(env: Classifiers, s: Snapshot, c: Pending, result: Result<Dataset, ImportError>)
    requires Inv(env, s) && c.Importing?
    requires result.Ok? ==> |result.value.layers| > 0
    ensures Inv(env, AfterImport(env, s, c, result).after)
  {
    if result.Ok? {
      var d := Done(s, c);
      var added := d.(datasets := d.datasets + [Registered(result.value, c.opts)],
                      importDataset := Some(|d.datasets|), importCount := d.importCount + 1);
      assert Inv(env, added);
      ReadNextPopsGreatest(env, added);
    }
  }

  /** `readNext` touches neither the dataset list nor the import count, and drops no
      scheduled callback. */
  lemma ReadNextKeepsModel(env: Classifiers, s: Snapshot)
    ensures AfterReadNext(env, s).after.datasets == s.datasets
    ensures AfterReadNext(env, s).after.importCount == s.importCount
    ensures s.pending <= AfterReadNext(env, s).after.pending
  {
  }

  /** `after` keeps the count, the number of datasets, every projection already set
      and every callback scheduled in `s`. */
  predicate KeepsBookkeeping(s: Snapshot, after: Snapshot)
  {
    after.importCount == s.importCount && |after.datasets| == |s.datasets| && s.pending <= after.pending &&
    forall i :: 0 <= i < |s.datasets| && HasPrj(s.datasets[i].info) ==>
      after.datasets[i].info == s.datasets[i].info
  }

  lemma DbfBookkeeping(env: Classifiers, s: Snapshot, t: nat, table: Table)
    requires t < |s.datasets| && |s.datasets[t].layers| > 0
    ensures KeepsBookkeeping(s, AfterDbf(env, s, t, table).after)
  {
    ReadNextKeepsModel(env, s.(datasets := AttachTable(s.datasets, t, table)));
  }

  lemma PrjBookkeeping(env: Classifiers, s: Snapshot, name: string, content: Content)
    ensures KeepsBookkeeping(s, AfterPrj(env, s, name, content).after)
  {
    ReadNextKeepsModel(env, s.(datasets := WithPrj(env, s.datasets, name, content)));
  }

  /** A file read as content never changes the import count and never adds or removes
      a dataset, no step replaces a projection a dataset already has, and every
      callback scheduled before is still scheduled after. */
  lemma ContentBookkeeping(env: Classifiers, s: Snapshot, name: string, content: Content, opts: Option<ImportOpts>)
    ensures var r := AfterContent(env, s, name, content, opts);
      r.after.importCount == s.importCount && |r.after.datasets| == |s.datasets| && s.pending <= r.after.pending
    ensures var r := AfterContent(env, s, name, content, opts);
      forall i :: 0 <= i < |s.datasets| && HasPrj(s.datasets[i].info) ==>
        r.after.datasets[i].info == s.datasets[i].info
  {
    var r := AfterContent(env, s, name, content, opts);
    assert KeepsBookkeeping(s, r.after) by {
      if opts.Some? {
        var table := DbfTable(env, content, opts.value.encoding);
        match DispatchFor(env, s.datasets, name, content)
        case AttachDbf(t) =>
          if table.Some? {
            DbfBookkeeping(env, s, t, table.value);
          }
        case AssignPrj() =>
          PrjBookkeeping(env, s, name, content);
        case ImportNew =>
      }
    }
  }

  /** An exception from the options parser or from the table constructor ends the
      callback with nothing changed: no table is attached, the queue is neither
      advanced nor cleared and no further callback is scheduled. */
  lemma ThrowLeavesStateAlone(env: Classifiers, s: Snapshot, name: string, content: Content, opts: Option<ImportOpts>)
    ensures var r := AfterContent(env, s, name, content, opts);
      r.report == OptionsRejected <==> opts.None?
    ensures var r := AfterContent(env, s, name, content, opts);
      r.report.TableRejected? <==>
        opts.Some? && DispatchFor(env, s.datasets, name, content).AttachDbf? &&
        DbfTable(env, content, opts.value.encoding).None?
    ensures var r := AfterContent(env, s, name, content, opts);
      r.report.OptionsRejected? || r.report.TableRejected? ==> r.after == s && r.next == None
  {
    if opts.Some? {
      match DispatchFor(env, s.datasets, name, content)
      case AttachDbf(t) =>
      case AssignPrj() =>
      case ImportNew =>
    }
  }

  /** A read that returns nothing, or an empty string when text was asked for, empties
      the queue and changes nothing else the session keeps; an ArrayBuffer result, even
      an empty one, is always processed. */
  lemma LoadFailureCases(env: Classifiers, s: Snapshot, c: Pending, result: Option<Content>, opts: Option<ImportOpts>)
    requires c.Reading?
    requires result.Some? ==> result.value.Binary? == c.binary
    ensures var r := AfterLoad(env, s, c, result, opts);
      r.report.Alert? <==> result.None? || (!c.binary && result.value.text == "")
    ensures var r := AfterLoad(env, s, c, result, opts);
      r.report.Alert? ==>
        r.after.queuedFiles == [] && r.next == None && r.after.datasets == s.datasets && r.after.importCount == s.importCount &&
        r.after.importDataset == s.importDataset && r.after.importMode == s.importMode &&
        r.after.pending == s.pending - multiset{c}
  {
    if result.Some? && Truthy(result.value) {
      var r := AfterContent(env, Done(s, c), c.file.name, result.value, opts);
      assert !r.report.Alert? by {
        ThrowLeavesStateAlone(env, Done(s, c), c.file.name, result.value, opts);
        if opts.Some? {
          match DispatchFor(env, s.datasets, c.file.name, result.value)
          case AttachDbf(t) =>
          case AssignPrj() =>
          case ImportNew =>
        }
      }
    }
  }

  /** A `.dbf` whose record count differs from the shape count stops the pipeline with
      the table already attached: the queue is neither advanced nor cleared. */
  lemma MismatchKeepsTable(env: Classifiers, s: Snapshot, name: string, content: Content, opts: Option<ImportOpts>)
    requires AfterContent(env, s, name, content, opts).report.DbfMismatch?
    ensures var r := AfterContent(env, s, name, content, opts);
      var t := r.report.target;
      opts.Some? && t < |s.datasets| && r.after.datasets[t].layers[0].data == DbfTable(env, content, opts.value.encoding) &&
      r.after.queuedFiles == s.queuedFiles && r.next == None && r.after.pending == s.pending && r.after.importCount == s.importCount
  {
  }

  /** A successful import appends exactly one dataset, remembers it and adds one to the
      count; a failed import changes neither and empties the queue. */
  lemma ImportBookkeeping(env: Classifiers, s: Snapshot, c: Pending, result: Result<Dataset, ImportError>)
    requires c.Importing?
    ensures var r := AfterImport(env, s, c, result);
      result.Ok? ==>
        r.after.importCount == s.importCount + 1 && |r.after.datasets| == |s.datasets| + 1 &&
        r.after.datasets[..|s.datasets|] == s.datasets &&
        r.after.datasets[|s.datasets|] == Registered(result.value, c.opts) &&
        (r.after.importDataset == Some(|s.datasets|) || r.after.selected == Some(|s.datasets|))
    ensures var r := AfterImport(env, s, c, result);
      result.Err? ==>
        r.after.importCount == s.importCount && r.after.datasets == s.datasets && r.after.queuedFiles == [] &&
        r.report == Alert(ErrorMessage(result.error, c.path)) && r.next == None
    ensures s.pending - multiset{c} <= AfterImport(env, s, c, result).after.pending
  {
    if result.Ok? {
      var d := Done(s, c);
      var added := d.(datasets := d.datasets + [Registered(result.value, c.opts)],
                      importDataset := Some(|d.datasets|), importCount := d.importCount + 1);
      assert added.datasets[..|s.datasets|] == s.datasets;
      ReadNextKeepsModel(env, added);
    }
  }

  class ImportControl {
    const env: Classifiers
    var importCount: nat
    var queuedFiles: seq<File>
    /** Position of `importDataset` in the dataset list. */
    var importDataset: Option<nat>
    /** `model.getDatasets()`. */
    var datasets: seq<Dataset>
    /** The dataset whose first layer `model.selectLayer` last received. */
    var selected: Option<nat>
    var importMode: bool
    /** The callbacks scheduled and not yet fired. */
    var pending: multiset<Pending>

    ghost function Snap(): Snapshot
      reads this
    {
      Snapshot(queuedFiles, importCount, importDataset, datasets, selected, importMode, pending)
    }

    ghost predicate Valid()
      reads this
    {
      Inv(env, Snap())
    }

    /** `ImportControl(model, opts)`: enters import mode, whose `turnOn` starts the
        download of the manifest files when there are any. */
    constructor (env: Classifiers, datasets: seq<Dataset>, manifest: seq<string>)
      requires AllHaveLayers(datasets)
      ensures Valid() && this.env == env
      ensures Snap() == Snapshot([], 0, None, datasets, None, true,
                                 if |manifest| > 0 then multiset{Downloading(PrepFilesForDownload(env, manifest))} else multiset{})
    {
      this.env := env;
      importCount := 0;
      queuedFiles := [];
      importDataset := None;
      this.datasets := datasets;
      selected := None;
      importMode := true;
      pending := if |manifest| > 0 then multiset{Downloading(PrepFilesForDownload(env, manifest))} else multiset{};
    }

    method ClearFiles()
      modifies this`queuedFiles
      ensures queuedFiles == []
    {
      queuedFiles := [];
    }

    method AddFiles(files: seq<File>)
      requires Valid()
      modifies this`queuedFiles
      ensures Valid()
      ensures IsIntake(env, old(queuedFiles), files, queuedFiles)
      ensures Snap() == old(Snap()).(queuedFiles := queuedFiles)
    {
      var all := queuedFiles + files;
      var index: set<string> := {};
      var memo: seq<File> := [];
      for i := 0 to |all|
        invariant memo == Deduplicated(env, all[..i])
        invariant index == Names(memo)
      {
        var f := all[i];
        assert all[..i + 1][..i] == all[..i];
        if IsReadableFileType(env, f.name) && f.name !in index {
          index := index + {f.name};
          memo := memo + [f];
        }
      }
      assert all[..|all|] == all;
      queuedFiles := SortByLowerName(memo);
      IntakeIsQueue(env, old(queuedFiles), files, queuedFiles);
    }

    method TurnOff()
      requires Valid()
      modifies this
      ensures Valid()
      ensures Snap() == TurnedOff(old(Snap()))
    {
      if importDataset.Some? {
        selected := importDataset;
        importDataset := None;
      }
      ClearFiles();
    }

    method ClearMode()
      requires Valid()
      modifies this
      ensures Valid()
      ensures Snap() == ModeCleared(old(Snap()))
    {
      if importMode {
        importMode := false;
        TurnOff();
      }
    }

    method EnterImportMode()
      modifies this`importMode
      ensures Snap() == old(Snap()).(importMode := true)
    {
      importMode := true;
    }

    method ReadNext() returns (next: Option<File>)
      requires Valid()
      modifies this
      ensures Valid()
      ensures AfterReadNext(env, old(Snap())) == Step(Snap(), Quiet, next)
    {
      ReadNextPopsGreatest(env, Snap());
      if |queuedFiles| > 0 {
        var f := queuedFiles[|queuedFiles| - 1];
        queuedFiles := queuedFiles[..|queuedFiles| - 1];
        pending := pending + multiset{StageFor(env, f)};
        next := Some(f);
      } else {
        ClearMode();
        next := None;
      }
    }

    /** The submit button: hide the options and start the pipeline. Nothing stops a
        submission while an earlier file is still being read; both reads then run. */
    method SubmitFiles() returns (next: Option<File>)
      requires Valid()
      modifies this
      ensures Valid()
      ensures AfterReadNext(env, old(Snap())) == Step(Snap(), Quiet, next)
    {
      next := ReadNext();
    }

    method ReceiveFiles(files: seq<File>) returns (reception: Reception, next: Option<File>, ghost added: seq<File>)
      requires Valid()
      modifies this
      ensures Valid()
      ensures IsIntake(env, old(queuedFiles), files, added)
      ensures reception == ReceptionFor(env, old(importCount), old(queuedFiles), files)
      ensures var s := old(Snap()).(queuedFiles := added);
        match reception
        case Ignored => Snap() == s && next == None
        case Submitted => AfterReadNext(env, s.(importMode := true)) == Step(Snap(), Quiet, next)
        case AwaitingConfirmation => Snap() == s.(importMode := true) && next == None
    {
      var prevSize := |queuedFiles|;
      ghost var before := queuedFiles;
      AddFiles(files);
      added := queuedFiles;
      ghost var d := Deduplicated(env, before + files);
      assert |added| == |multiset(added)| == |multiset(d)| == |d|;
      if |queuedFiles| == 0 {
        reception := Ignored;
        next := None;
        return;
      }
      EnterImportMode();
      ImmediateUnderPermutation(env, queuedFiles, d);
      if importCount == 0 && prevSize == 0 && ContainsImmediateFile(env, queuedFiles) {
        reception := Submitted;
        next := SubmitFiles();
      } else {
        reception := AwaitingConfirmation;
        next := None;
      }
    }

    method HandleImportError(e: ImportError, path: string) returns (message: string)
      requires Valid()
      modifies this`queuedFiles
      ensures Valid()
      ensures message == ErrorMessage(e, path)
      ensures Snap() == Failed(old(Snap()))
    {
      message := ErrorMessage(e, path);
      ClearFiles();
    }

    /** `importFileContent` up to its timer: the import itself happens in
        `OnImportDone`. */
    method ImportFileContent(path: string, content: Content, opts: ImportOpts) returns (showProgress: bool)
      requires Valid()
      modifies this`pending
      ensures Valid()
      ensures showProgress == IsLarge(content)
      ensures Snap() == old(Snap()).(pending := old(pending) + multiset{Importing(path, content, opts)})
    {
      showProgress := Size(content) > LargeContentSize;
      pending := pending + multiset{Importing(path, content, opts)};
    }

    /** The `.dbf` branch of `readFileContent`. */
    method MergeDbf(t: nat, table: Table) returns (report: Report, next: Option<File>)
      requires Valid() && t < |datasets| && LacksData(datasets[t])
      modifies this
      ensures Valid()
      ensures AfterDbf(env, old(Snap()), t, table) == Step(Snap(), report, next)
    {
      var lyr := datasets[t].layers[0];
      datasets := AttachTable(datasets, t, table);
      if RecordMismatch(lyr, table) {
        // `stop` throws: neither the refresh nor `readNext` is reached
        report := DbfMismatch(t, MismatchText);
        next := None;
        return;
      }
      report := DbfAttached(t, lyr.geometryType.None?);
      next := ReadNext();
    }

    /** The `.prj` loop of `readFileContent`. */
    method AssignProjection(name: string, content: Content)
      modifies this`datasets
      ensures datasets == WithPrj(env, old(datasets), name, content)
    {
      var matches := FindMatchingShp(env, datasets, name);
      var ds := datasets;
      for k := 0 to |matches|
        invariant |ds| == |datasets|
        invariant forall i :: 0 <= i < |datasets| ==>
          ds[i] == if i in matches[..k] && !HasPrj(datasets[i].info) then SetPrj(datasets[i], content) else datasets[i]
      {
        var i := matches[k];
        assert i !in matches[..k] by {
          assert forall j :: 0 <= j < k ==> matches[j] < i;
        }
        if !HasPrj(ds[i].info) {
          ds := ds[i := SetPrj(ds[i], content)];
        }
      }
      assert matches[..|matches|] == matches;
      datasets := ds;
    }

    /** The `.prj` branch of `readFileContent`. */
    method MergePrj(name: string, content: Content) returns (report: Report, next: Option<File>)
      requires Valid()
      modifies this
      ensures Valid()
      ensures AfterPrj(env, old(Snap()), name, content) == Step(Snap(), report, next)
    {
      report := PrjAssigned(FindMatchingShp(env, datasets, name));
      AssignProjection(name, content);
      next := ReadNext();
    }

    /** `readFileContent`; `opts` is what `getImportOpts` returns, or nothing when the
        options parser throws. */
    method ReadFileContent(name: string, content: Content, opts: Option<ImportOpts>) returns (report: Report, next: Option<File>)
      requires Valid()
      modifies this
      ensures Valid()
      ensures AfterContent(env, old(Snap()), name, content, opts) == Step(Snap(), report, next)
    {
      if opts.None? {
        report := OptionsRejected;
        next := None;
        return;
      }
      var kind := env.guessInputType(name, content);
      var matches := FindMatchingShp(env, datasets, name);
      if kind == "dbf" && |matches| > 0 {
        var target := LastLackingData(datasets, matches);
        if target.Some? {
          var table := DbfTable(env, content, opts.value.encoding);
          if table.None? {
            report := TableRejected(target.value);
            next := None;
            return;
          }
          report, next := MergeDbf(target.value, table.value);
          return;
        }
      }
      if kind == "prj" {
        report, next := MergePrj(name, content);
        return;
      }
      var showProgress := ImportFileContent(name, content, opts.value);
      report := ImportScheduled(showProgress);
      next := None;
    }

    /** The `loadend` callback `c` of `readSingleFile`, with the reader's result, which
        has the representation the reader was asked for. */
    method OnFileLoaded(c: Pending, result: Option<Content>, opts: Option<ImportOpts>) returns (report: Report, next: Option<File>)
      requires Valid() && c in pending && c.Reading?
      requires result.Some? ==> result.value.Binary? == c.binary
      modifies this
      ensures Valid()
      ensures AfterLoad(env, old(Snap()), c, result, opts) == Step(Snap(), report, next)
    {
      pending := pending - multiset{c};
      if result.None? || !Truthy(result.value) {
        var message := HandleImportError(ErrorString(ReadFailureText), c.file.name);
        report := Alert(message);
        next := None;
      } else {
        report, next := ReadFileContent(c.file.name, result.value, opts);
      }
    }

    /** The success branch of the timer callback: the dataset is added to the model
        and remembered, and the count goes up. */
    method Register(d: Dataset, opts: ImportOpts)
      requires Valid() && |d.layers| > 0
      modifies this`datasets, this`importDataset, this`importCount
      ensures Valid()
      ensures Snap() == old(Snap()).(datasets := old(datasets) + [Registered(d, opts)],
                                     importDataset := Some(|old(datasets)|), importCount := old(importCount) + 1)
    {
      datasets := datasets + [Registered(d, opts)];
      importDataset := Some(|datasets| - 1);
      importCount := importCount + 1;
    }

    /** The timer callback `c` of `importFileContent`, with what the importer returned. */
    method OnImportDone(c: Pending, result: Result<Dataset, ImportError>) returns (report: Report, next: Option<File>)
      requires Valid() && c in pending && c.Importing?
      requires result.Ok? ==> |result.value.layers| > 0
      modifies this
      ensures Valid()
      ensures AfterImport(env, old(Snap()), c, result) == Step(Snap(), report, next)
    {
      pending := pending - multiset{c};
      match result {
        case Ok(d) =>
          Register(d, c.opts);
          report := Quiet;
          next := ReadNext();
        case Err(e) =>
          var message := HandleImportError(e, c.path);
          report := Alert(message);
          next := None;
      }
    }

    /** The callback `c` of the zip reader: the archive's members other than `.txt`
        files are queued, then the pipeline goes on. */
    method OnZipRead(c: Pending, result: Result<seq<File>, ImportError>) returns (report: Report, next: Option<File>, ghost added: seq<File>)
      requires Valid() && c in pending && c.Unzipping?
      modifies this
      ensures Valid()
      ensures var s := Done(old(Snap()), c);
        match result
        case Err(e) =>
          Step(Snap(), report, next) == Step(Failed(s), Alert(ErrorMessage(e, c.file.name)), None)
        case Ok(files) =>
          IsIntake(env, s.queuedFiles, WithoutTxt(files), added) &&
          AfterReadNext(env, s.(queuedFiles := added)) == Step(Snap(), report, next)
    {
      pending := pending - multiset{c};
      added := queuedFiles;
      match result {
        case Err(e) =>
          var message := HandleImportError(e, c.file.name);
          report := Alert(message);
          next := None;
        case Ok(files) =>
          AddFiles(WithoutTxt(files));
          added := queuedFiles;
          report := Quiet;
          next := ReadNext();
      }
    }

    /** The end `c` of the manifest download, given what the network answers for each
        item: an error is shown and nothing is queued; no files leave import mode;
        otherwise the files are queued and submitted. */
    method OnDownloadsDone(c: Pending, fetch: DownloadItem -> Response) returns (report: Report, next: Option<File>, ghost added: seq<File>)
      requires Valid() && c in pending && c.Downloading?
      modifies this
      ensures Valid()
      ensures var s := Done(old(Snap()), c);
        match CollectDownloads(c.items, fetch)
        case Err(e) => Step(Snap(), report, next) == Step(s, Alert(e), None)
        case Ok(files) =>
          if |files| == 0 then Step(Snap(), report, next) == Step(ModeCleared(s), Quiet, None)
          else (IsIntake(env, s.queuedFiles, files, added) &&
                AfterReadNext(env, s.(queuedFiles := added)) == Step(Snap(), report, next))
    {
      pending := pending - multiset{c};
      added := queuedFiles;
      var result := CollectDownloads(c.items, fetch);
      match result {
        case Err(e) =>
          report := Alert(e);
          next := None;
        case Ok(files) =>
          if |files| == 0 {
            ClearMode();
            report := Quiet;
            next := None;
          } else {
            AddFiles(files);
            added := queuedFiles;
            report := Quiet;
            next := SubmitFiles();
          }
      }
    }
  }
}
